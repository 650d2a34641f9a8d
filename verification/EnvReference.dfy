/** Resolving `${KEY}` and `${KEY:-fallback}` in environment values, with a guard against cycles. */
module EnvReference {
  import opened Wrappers

  type Env = map<string, string>

  /** What JavaScript's trim removes. */
  predicate IsSpace(c: char)
  {
    || '\t' <= c <= '\r' || c == ' ' || c == '\U{A0}' || c == '\U{1680}' || '\U{2000}' <= c <= '\U{200A}'
    || c == '\U{2028}' || c == '\U{2029}' || c == '\U{202F}' || c == '\U{205F}' || c == '\U{3000}' || c == '\U{FEFF}'
  }

  predicate Blank(s: string) { forall i | 0 <= i < |s| :: IsSpace(s[i]) }

  /** The first position at or after i holding a stop character, or the end. */
  function Scan(s: string, i: nat, colonStops: bool): (j: nat)
    requires i <= |s|
    ensures i <= j <= |s|
    decreases |s| - i
  {
    if i == |s| || s[i] == '}' || (colonStops && s[i] == ':') then i else Scan(s, i + 1, colonStops)
  }

  /** A reference and where it ends. */
  datatype Match = Match(end: nat, key: string, fallback: string)

  /** The pattern `\\$\\{([^}:]+)(?::-([^}]*))?\\}` anchored at i. */
  function MatchAt(s: string, i: nat): (m: Option<Match>)
    requires i <= |s|
    ensures m.Some? ==> i < m.value.end <= |s|
  {
    if i + 2 > |s| || s[i] != '$' || s[i + 1] != '{' then None
    else
      var k := Scan(s, i + 2, true);
      if k == i + 2 || k == |s| then None
      else if s[k] == '}' then Some(Match(k + 1, s[i + 2..k], ""))
      else if k + 1 < |s| && s[k + 1] == '-' then
        var f := Scan(s, k + 2, false);
        if f == |s| then None else Some(Match(f + 1, s[i + 2..k], s[k + 2..f]))
      else None
  }

  /** The key names a value worth using. */
  predicate Usable(env: Env, key: string) { key in env && !Blank(env[key]) }

  // ---- the guarded resolver ----

  /** Keys that may still be followed; it shrinks with every nested value. */
  function Unseen(env: Env, seen: set<string>): set<string> { env.Keys - seen }

  function Resolve(value: string, env: Env, seen: set<string>): string
    decreases |Unseen(env, seen)|, |value| + 1
  {
    ResolveFrom(value, 0, env, seen)
  }

  /** The global replacement, from position i on. */
  function ResolveFrom(value: string, i: nat, env: Env, seen: set<string>): string
    requires i <= |value|
    decreases |Unseen(env, seen)|, |value| - i
  {
    if i == |value| then ""
    else
      match MatchAt(value, i)
      case None => [value[i]] + ResolveFrom(value, i + 1, env, seen)
      case Some(m) => Replacement(m, env, seen) + ResolveFrom(value, m.end, env, seen)
  }

  function Replacement(m: Match, env: Env, seen: set<string>): string
    decreases |Unseen(env, seen)|, 0
  {
    if m.key in seen || !Usable(env, m.key) then m.fallback
    else
      UnseenShrinks(env, seen, m.key);
      Resolve(env[m.key], env, seen + {m.key})
  }

  lemma UnseenShrinks(env: Env, seen: set<string>, key: string)
    requires key in env && key !in seen
    ensures |Unseen(env, seen + {key})| < |Unseen(env, seen)|
  {
    assert Unseen(env, seen) == Unseen(env, seen + {key}) + {key};
  }

  lemma FollowsKey(m: Match, env: Env, seen: set<string>)
    requires m.key !in seen && Usable(env, m.key)
    ensures Replacement(m, env, seen) == ResolveFrom(env[m.key], 0, env, seen + {m.key})
  {
  }

  // ---- what the pattern matches ----

  /** s[i..m.end] reads `${key}`, or `${key:-fallback}`. */
  predicate IsReference(s: string, i: nat, m: Match)
  {
    && i < m.end <= |s| && m.key != "" && '}' !in m.key && ':' !in m.key && '}' !in m.fallback
    && (|| (s[i..m.end] == "${" + m.key + "}" && m.fallback == "")
        || s[i..m.end] == "${" + m.key + ":-" + m.fallback + "}")
  }

  predicate Stop(c: char, colonStops: bool) { c == '}' || (colonStops && c == ':') }

  lemma {:induction false} ScanStops(s: string, i: nat, colonStops: bool)
    requires i <= |s|
    ensures var j := Scan(s, i, colonStops);
      && (forall k | i <= k < j :: !Stop(s[k], colonStops)) && (j < |s| ==> Stop(s[j], colonStops))
    decreases |s| - i
  {
    if i < |s| && !Stop(s[i], colonStops) { ScanStops(s, i + 1, colonStops); }
  }

  lemma ScanIs(s: string, i: nat, colonStops: bool, j: nat)
    requires i <= j < |s| && Stop(s[j], colonStops) && forall k | i <= k < j :: !Stop(s[k], colonStops)
    ensures Scan(s, i, colonStops) == j
  {
    hide Scan;
    ScanStops(s, i, colonStops);
  }

  lemma PlainSlice(s: string, i: nat, k: nat)
    requires i + 2 <= k < |s| && s[i] == '$' && s[i + 1] == '{' && s[k] == '}'
    ensures s[i..k + 1] == "${" + s[i + 2..k] + "}"
  {
    assert s[i..k + 1] == [s[i], s[i + 1]] + s[i + 2..k] + [s[k]];
  }

  lemma FallbackSlice(s: string, i: nat, k: nat, f: nat)
    requires i + 2 <= k && k + 2 <= f < |s| && s[i] == '$' && s[i + 1] == '{'
    requires s[k] == ':' && s[k + 1] == '-' && s[f] == '}'
    ensures s[i..f + 1] == "${" + s[i + 2..k] + ":-" + s[k + 2..f] + "}"
  {
    assert s[i..f + 1] == [s[i], s[i + 1]] + s[i + 2..k] + [s[k], s[k + 1]] + s[k + 2..f] + [s[f]];
  }

  lemma MatchIsReference(s: string, i: nat)
    requires i <= |s| && MatchAt(s, i).Some?
    ensures IsReference(s, i, MatchAt(s, i).value)
  {
    hide Scan;
    var m, k := MatchAt(s, i).value, Scan(s, i + 2, true);
    ScanStops(s, i + 2, true);
    if s[k] == '}' {
      PlainSlice(s, i, k);
    } else {
      ScanStops(s, k + 2, false);
      FallbackSlice(s, i, k, Scan(s, k + 2, false));
    }
  }

  lemma SliceParts(s: string, i: nat, e: nat, a: string, b: string, c: string)
    requires i <= e <= |s| && s[i..e] == a + b + c
    ensures s[i..i + |a|] == a && s[i + |a|..i + |a| + |b|] == b && s[i + |a| + |b|..e] == c
  {
    var r := s[i..e];
    assert r[..|a|] == a && r[|a|..|a| + |b|] == b && r[|a| + |b|..] == c;
    assert forall j | 0 <= j < |r| :: r[j] == s[i + j];
    assert s[i..i + |a|] == r[..|a|];
    assert s[i + |a|..i + |a| + |b|] == r[|a|..|a| + |b|];
    assert s[i + |a| + |b|..e] == r[|a| + |b|..];
  }

  lemma PlainIsMatch(s: string, i: nat, key: string)
    requires i + 3 + |key| <= |s| && s[i..i + 3 + |key|] == "${" + key + "}" && key != "" && '}' !in key && ':' !in key
    ensures MatchAt(s, i) == Some(Match(i + 3 + |key|, key, ""))
  {
    hide Scan;
    var k := i + 2 + |key|;
    SliceParts(s, i, k + 1, "${", key, "}");
    assert s[i] == s[i..i + 2][0] && s[i + 1] == s[i..i + 2][1] && s[i + 2..k] == key;
    assert s[k] == s[k..k + 1][0];
    forall j | i + 2 <= j < k ensures !Stop(s[j], true) { assert s[j] == key[j - i - 2] && key[j - i - 2] in key; }
    ScanIs(s, i + 2, true, k);
  }

  lemma FallbackIsMatch(s: string, i: nat, key: string, fallback: string)
    requires i + 5 + |key| + |fallback| <= |s| && key != "" && '}' !in key && ':' !in key && '}' !in fallback
    requires s[i..i + 5 + |key| + |fallback|] == "${" + key + (":-" + fallback + "}")
    ensures MatchAt(s, i) == Some(Match(i + 5 + |key| + |fallback|, key, fallback))
  {
    hide Scan;
    var k := i + 2 + |key|;
    var f := k + 2 + |fallback|;
    SliceParts(s, i, f + 1, "${", key, ":-" + fallback + "}");
    SliceParts(s, k, f + 1, ":-", fallback, "}");
    assert s[i + 2..k] == key && s[k + 2..f] == fallback;
    assert s[i] == s[i..i + 2][0] && s[i + 1] == s[i..i + 2][1];
    assert s[k] == s[k..k + 2][0] && s[k + 1] == s[k..k + 2][1] && s[f] == s[f..f + 1][0];
    forall j | i + 2 <= j < k ensures !Stop(s[j], true) { assert s[j] == key[j - i - 2] && key[j - i - 2] in key; }
    ScanIs(s, i + 2, true, k);
    forall j | k + 2 <= j < f ensures !Stop(s[j], false) {
      assert s[j] == fallback[j - k - 2] && fallback[j - k - 2] in fallback;
    }
    ScanIs(s, k + 2, false, f);
  }

  lemma ReferenceIsMatch(s: string, i: nat, m: Match)
    requires i <= |s| && IsReference(s, i, m)
    ensures MatchAt(s, i) == Some(m)
  {
    hide MatchAt;
    assert |s[i..m.end]| == m.end - i;
    if s[i..m.end] == "${" + m.key + "}" && m.fallback == "" {
      PlainIsMatch(s, i, m.key);
    } else {
      assert "${" + m.key + ":-" + m.fallback + "}" == "${" + m.key + (":-" + m.fallback + "}");
      FallbackIsMatch(s, i, m.key, m.fallback);
    }
  }

  /** The pattern matches at a position exactly the references that begin there. */
  lemma MatchesExactlyReferences(s: string, i: nat, m: Match)
    requires i <= |s|
    ensures MatchAt(s, i) == Some(m) <==> IsReference(s, i, m)
  {
    if MatchAt(s, i) == Some(m) { MatchIsReference(s, i); }
    if IsReference(s, i, m) { ReferenceIsMatch(s, i, m); }
  }

  // ---- what resolving one reference does ----

  lemma MatchShift(s: string, e: nat, i: nat)
    requires e + i <= |s|
    ensures MatchAt(s, e + i).Some? <==> MatchAt(s[e..], i).Some?
    ensures MatchAt(s[e..], i).Some? ==>
      MatchAt(s, e + i).value == MatchAt(s[e..], i).value.(end := e + MatchAt(s[e..], i).value.end)
  {
    hide MatchAt;
    if MatchAt(s[e..], i).Some? {
      var m := MatchAt(s[e..], i).value;
      MatchIsReference(s[e..], i);
      assert s[e..][i..m.end] == s[e + i..e + m.end];
      ReferenceIsMatch(s, e + i, m.(end := e + m.end));
    }
    if MatchAt(s, e + i).Some? {
      var m := MatchAt(s, e + i).value;
      MatchIsReference(s, e + i);
      assert s[e..][i..m.end - e] == s[e + i..m.end];
      ReferenceIsMatch(s[e..], i, m.(end := m.end - e));
    }
  }

  lemma {:induction false} ResolveShift(s: string, e: nat, i: nat, env: Env, seen: set<string>)
    requires e + i <= |s|
    ensures ResolveFrom(s, e + i, env, seen) == ResolveFrom(s[e..], i, env, seen)
    decreases |s| - i
  {
    hide MatchAt, Replacement;
    if e + i < |s| {
      MatchShift(s, e, i);
      match MatchAt(s[e..], i)
      case None => ResolveShift(s, e, i + 1, env, seen);
      case Some(m) =>
        ResolveShift(s, e, m.end, env, seen);
        SameReplacement(MatchAt(s, e + i).value, m, env, seen);
    }
  }

  lemma SameReplacement(m: Match, n: Match, env: Env, seen: set<string>)
    requires m.key == n.key && m.fallback == n.fallback
    ensures Replacement(m, env, seen) == Replacement(n, env, seen)
  {
  }

  predicate NoReferenceIn(s: string, i: nat, j: nat)
    requires i <= j <= |s|
  {
    forall k | i <= k < j :: MatchAt(s, k).None?
  }

  lemma {:induction false} TextIsKept(s: string, i: nat, j: nat, env: Env, seen: set<string>)
    requires i <= j <= |s| && NoReferenceIn(s, i, j)
    ensures ResolveFrom(s, i, env, seen) == s[i..j] + ResolveFrom(s, j, env, seen)
    decreases j - i
  {
    hide MatchAt, ResolveFrom;
    if i == j {
      assert s[i..j] == "";
    } else {
      TextStep(s, i, env, seen);
      TextIsKept(s, i + 1, j, env, seen);
      assert s[i..j] == [s[i]] + s[i + 1..j];
    }
  }

  lemma TextStep(s: string, i: nat, env: Env, seen: set<string>)
    requires i < |s| && MatchAt(s, i).None?
    ensures ResolveFrom(s, i, env, seen) == [s[i]] + ResolveFrom(s, i + 1, env, seen)
  {
  }

  lemma MatchStep(s: string, i: nat, env: Env, seen: set<string>)
    requires i < |s| && MatchAt(s, i).Some?
    ensures ResolveFrom(s, i, env, seen) ==
      Replacement(MatchAt(s, i).value, env, seen) + ResolveFrom(s, MatchAt(s, i).value.end, env, seen)
  {
  }

  /** Text without a reference is returned as it is. */
  lemma NoReferenceNoChange(s: string, env: Env, seen: set<string>)
    requires forall k, m | 0 <= k <= |s| :: !IsReference(s, k, m)
    ensures Resolve(s, env, seen) == s
  {
    hide MatchAt, IsReference;
    forall k | 0 <= k < |s| ensures MatchAt(s, k).None? { if MatchAt(s, k).Some? { MatchIsReference(s, k); } }
    TextIsKept(s, 0, |s|, env, seen);
    assert s[0..|s|] == s;
  }

  /** Around its first reference a value resolves to the text before it, then the value of its key
      resolved in turn or, when the key is missing, blank or being resolved already, the fallback, and
      then the rest, resolved. */
  lemma ResolvesAroundReference(s: string, i: nat, m: Match, env: Env, seen: set<string>)
    requires i <= |s| && IsReference(s, i, m) && forall k, n | 0 <= k < i :: !IsReference(s, k, n)
    ensures Resolve(s, env, seen) ==
      s[..i]
      + (if m.key in env && m.key !in seen && (exists c :: c in env[m.key] && !IsSpace(c))
         then Resolve(env[m.key], env, seen + {m.key}) else m.fallback)
      + Resolve(s[m.end..], env, seen)
  {
    hide MatchAt, IsReference, ResolveFrom, Usable, IsSpace;
    ReferenceIsMatch(s, i, m);
    ReferenceInside(s, i, m);
    forall k | 0 <= k < i ensures MatchAt(s, k).None? { if MatchAt(s, k).Some? { MatchIsReference(s, k); } }
    TextIsKept(s, 0, i, env, seen);
    assert s[0..i] == s[..i];
    MatchStep(s, i, env, seen);
    ResolveShift(s, m.end, 0, env, seen);
    UsableMeans(env, m.key);
    ReplacementMeans(m, env, seen);
    assert (s[..i] + Replacement(m, env, seen)) + Resolve(s[m.end..], env, seen) ==
      s[..i] + (Replacement(m, env, seen) + Resolve(s[m.end..], env, seen));
  }

  lemma ReferenceInside(s: string, i: nat, m: Match)
    requires IsReference(s, i, m)
    ensures i < m.end <= |s|
  {
  }

  lemma ReplacementMeans(m: Match, env: Env, seen: set<string>)
    ensures Replacement(m, env, seen) ==
      if m.key !in seen && Usable(env, m.key) then Resolve(env[m.key], env, seen + {m.key}) else m.fallback
  {
  }

  /** Spaces are the characters U+0009 to U+000D and those ECMAScript calls white space. */
  lemma SpaceCodes(c: char)
    ensures IsSpace(c) <==>
      var code := c as int;
      || 9 <= code <= 13 || 0x2000 <= code <= 0x200A
      || code in {0x20, 0xA0, 0x1680, 0x2028, 0x2029, 0x202F, 0x205F, 0x3000, 0xFEFF}
  {
  }

  lemma UsableMeans(env: Env, key: string)
    ensures Usable(env, key) <==> key in env && exists c :: c in env[key] && !IsSpace(c)
  {
    if key in env && Blank(env[key]) { assert forall c <- env[key] :: IsSpace(c); }
    if key in env && !Blank(env[key]) {
      var i :| 0 <= i < |env[key]| && !IsSpace(env[key][i]);
      assert env[key][i] in env[key];
    }
  }

  // ---- references and cycles ----

  /** The keys a value refers to. */
  function Refs(value: string, i: nat): set<string>
    requires i <= |value|
    decreases |value| - i
  {
    if i == |value| then {}
    else
      match MatchAt(value, i)
      case None => Refs(value, i + 1)
      case Some(m) => {m.key} + Refs(value, m.end)
  }

  /** Resolving the value of a follows a reference to b. */
  predicate Edge(env: Env, a: string, b: string) { a in env && b in Refs(env[a], 0) && Usable(env, b) }

  predicate IsWalk(env: Env, path: seq<string>) { forall i | 0 <= i < |path| - 1 :: Edge(env, path[i], path[i + 1]) }

  predicate IsCycle(env: Env, path: seq<string>) { |path| >= 2 && path[0] == path[|path| - 1] && IsWalk(env, path) }

  /** The references followed along the path start in the value. */
  predicate WalkFrom(env: Env, value: string, path: seq<string>)
  {
    path != [] && path[0] in Refs(value, 0) && Usable(env, path[0]) && IsWalk(env, path)
  }

  ghost predicate Reached(env: Env, value: string, key: string)
  {
    exists path :: WalkFrom(env, value, path) && path[|path| - 1] == key
  }

  /** Some key on a cycle is reached from the value. */
  ghost predicate ReachesCycle(env: Env, value: string)
  {
    exists cycle :: IsCycle(env, cycle) && Reached(env, value, cycle[0])
  }

  ghost predicate NoCycleIn(env: Env, keys: set<string>)
  {
    forall path | IsCycle(env, path) :: path[0] !in keys
  }

  // ---- the resolver without the guard ----

  /** The resolver without the guard, cut off below `depth` nested values; None when it was cut off. */
  function Unguarded(value: string, i: nat, env: Env, depth: nat): Option<string>
    requires i <= |value|
    decreases depth, |value| - i
  {
    if i == |value| then Some("")
    else
      match MatchAt(value, i)
      case None => Joined(Some([value[i]]), Unguarded(value, i + 1, env, depth))
      case Some(m) =>
        var head :=
          if !Usable(env, m.key) then Some(m.fallback)
          else if depth == 0 then None
          else Unguarded(env[m.key], 0, env, depth - 1);
        Joined(head, Unguarded(value, m.end, env, depth))
  }

  function Joined(a: Option<string>, b: Option<string>): Option<string>
  {
    if a.Some? && b.Some? then Some(a.value + b.value) else None
  }

  // ---- a map without cycles can be ranked ----

  /** Following a reference always lowers the rank. */
  predicate Ranked(env: Env, rank: map<string, nat>)
  {
    && rank.Keys <= env.Keys
    && forall k <- rank :: forall r <- Refs(env[k], 0) :: Usable(env, r) ==> r in rank && rank[r] < rank[k]
  }

  predicate Below(env: Env, rank: map<string, nat>, refs: set<string>, bound: nat)
  {
    forall r <- refs :: Usable(env, r) ==> r in rank && rank[r] < bound
  }

  /** A list longer than the set its elements come from repeats one of them. */
  lemma {:induction false} Repeats(path: seq<string>, keys: set<string>) returns (i: nat, j: nat)
    requires |path| > |keys| && forall k <- path :: k in keys
    ensures i < j < |path| && path[i] == path[j]
  {
    var last := |path| - 1;
    if i' :| 0 <= i' < last && path[i'] == path[last] {
      i, j := i', last;
    } else {
      assert forall k <- path[..last] :: k in keys - {path[last]};
      i, j := Repeats(path[..last], keys - {path[last]});
    }
  }

  predicate Leaves(env: Env, x: string, keys: set<string>) { forall y <- keys :: !Edge(env, x, y) }

  lemma {:induction false} LongWalk(env: Env, keys: set<string>, n: nat) returns (path: seq<string>)
    requires keys != {} && forall x <- keys :: !Leaves(env, x, keys)
    ensures |path| == n + 1 && IsWalk(env, path) && forall k <- path :: k in keys
  {
    hide Edge, Leaves;
    if n == 0 {
      var x :| x in keys;
      path := [x];
    } else {
      var before := LongWalk(env, keys, n - 1);
      assert before[n - 1] in before;
      var y := Onward(env, keys, before[n - 1]);
      path := before + [y];
      assert forall i | 0 <= i < n :: path[i] == before[i];
    }
  }

  lemma Onward(env: Env, keys: set<string>, x: string) returns (y: string)
    requires !Leaves(env, x, keys)
    ensures y in keys && Edge(env, x, y)
  {
    y :| y in keys && Edge(env, x, y);
  }

  lemma WalkCloses(env: Env, path: seq<string>, i: nat, j: nat)
    requires IsWalk(env, path) && i < j < |path| && path[i] == path[j]
    ensures IsCycle(env, path[i..j + 1])
  {
    hide Edge;
    var cycle := path[i..j + 1];
    forall n | 0 <= n < |cycle| - 1 ensures Edge(env, cycle[n], cycle[n + 1]) {
      assert cycle[n] == path[i + n] && cycle[n + 1] == path[i + n + 1];
    }
  }

  /** Without cycles, some key of any set refers to none of the set. */
  lemma SinkExists(env: Env, keys: set<string>) returns (sink: string)
    requires NoCycleIn(env, keys) && keys != {}
    ensures sink in keys && Leaves(env, sink, keys)
  {
    hide Leaves, Edge;
    if forall x <- keys :: !Leaves(env, x, keys) {
      var path := LongWalk(env, keys, |keys|);
      var i, j := Repeats(path, keys);
      WalkCloses(env, path, i, j);
      assert false;
    }
    sink :| sink in keys && Leaves(env, sink, keys);
  }

  /** References from keys of the set lead to keys of the set. */
  predicate Closed(env: Env, keys: set<string>)
  {
    keys <= env.Keys && forall k <- keys :: forall r <- Refs(env[k], 0) :: Usable(env, r) ==> r in keys
  }

  /** Ranks for all keys, given ranks below |keys| - |left| for all but `left`. */
  lemma {:induction false} RankRest(env: Env, keys: set<string>, left: set<string>, rank: map<string, nat>)
    returns (full: map<string, nat>)
    requires NoCycleIn(env, keys) && Closed(env, keys) && left <= keys && rank.Keys == keys - left && Ranked(env, rank)
    requires forall k <- rank :: rank[k] < |keys| - |left|
    ensures full.Keys == keys && Ranked(env, full) && forall k <- full :: full[k] < |keys|
    decreases |left|
  {
    if left == {} {
      full := rank;
    } else {
      assert NoCycleIn(env, left);
      var x := SinkExists(env, left);
      SizeAtMost(left, keys);
      var more := rank[x := |keys| - |left|];
      RankOneMore(env, keys, left, rank, x, |keys| - |left|);
      full := RankRest(env, keys, left - {x}, more);
    }
  }

  lemma SizeAtMost(a: set<string>, b: set<string>)
    requires a <= b
    ensures |a| <= |b|
  {
    assert b == a + (b - a);
  }

  lemma RankOneMore(env: Env, keys: set<string>, left: set<string>, rank: map<string, nat>, x: string, top: nat)
    requires Closed(env, keys) && left <= keys && rank.Keys == keys - left && Ranked(env, rank)
    requires x in left && Leaves(env, x, left) && forall k <- rank :: rank[k] < top
    ensures Ranked(env, rank[x := top]) && rank[x := top].Keys == keys - (left - {x})
  {
    hide Blank;
    var more := rank[x := top];
    forall k, r | k in more && r in Refs(env[k], 0) && Usable(env, r) ensures r in more && more[r] < more[k] {
      if k == x { assert Edge(env, x, r); }
    }
  }

  // ---- the guard never fires without a cycle ----

  /** Nothing seen so far can be reached again. */
  predicate SeenAbove(rank: map<string, nat>, seen: set<string>, bound: nat)
  {
    forall k <- seen :: k in rank && rank[k] >= bound
  }

  lemma {:induction false} GuardNeverFires(
    value: string, i: nat, env: Env, rank: map<string, nat>, bound: nat, seen: set<string>, depth: nat)
    requires i <= |value| && Ranked(env, rank) && Below(env, rank, Refs(value, i), bound)
    requires SeenAbove(rank, seen, bound)
    requires bound <= depth
    ensures Unguarded(value, i, env, depth) == Some(ResolveFrom(value, i, env, seen))
    decreases bound, |value| - i
  {
    hide MatchAt, Blank;
    if i < |value| {
      match MatchAt(value, i)
      case None => GuardNeverFires(value, i + 1, env, rank, bound, seen, depth);
      case Some(m) =>
        assert m.key in Refs(value, i);
        GuardNeverFires(value, m.end, env, rank, bound, seen, depth);
        if Usable(env, m.key) {
          assert rank[m.key] < bound && m.key !in seen;
          GuardNeverFires(env[m.key], 0, env, rank, rank[m.key], seen + {m.key}, depth - 1);
          FollowsKey(m, env, seen);
        }
    }
  }

  // ---- the keys reached from a value ----

  ghost function ReachedKeys(env: Env, value: string): set<string> { set k | k in env && Reached(env, value, k) }

  lemma ReachedOn(env: Env, value: string, path: seq<string>, k: string)
    requires WalkFrom(env, value, path) && Edge(env, path[|path| - 1], k)
    ensures WalkFrom(env, value, path + [k]) && Reached(env, value, k)
  {
    hide Edge, Usable;
    var longer := path + [k];
    forall i | 0 <= i < |longer| - 1 ensures Edge(env, longer[i], longer[i + 1]) {
      if i < |path| - 1 { assert Edge(env, path[i], path[i + 1]); }
    }
    assert longer[|longer| - 1] == k;
  }

  lemma ReachedClosed(env: Env, value: string)
    ensures Closed(env, ReachedKeys(env, value))
    ensures forall r <- Refs(value, 0) :: Usable(env, r) ==> r in ReachedKeys(env, value)
  {
    hide Refs, Blank;
    var keys := ReachedKeys(env, value);
    forall k, r | k in keys && r in Refs(env[k], 0) && Usable(env, r) ensures r in keys {
      var path :| WalkFrom(env, value, path) && path[|path| - 1] == k;
      assert Edge(env, k, r);
      ReachedOn(env, value, path, r);
    }
    forall r | r in Refs(value, 0) && Usable(env, r) ensures r in keys {
      assert WalkFrom(env, value, [r]) && [r][|[r]| - 1] == r;
    }
  }

  /** On every value from which no cycle is reached, whatever else the map holds, the resolver without
      the guard ends, nesting no deeper than there are keys, and returns what the guarded one returns. */
  lemma GuardIsInvisible(value: string, env: Env, depth: nat)
    requires !ReachesCycle(env, value) && depth >= |env.Keys|
    ensures Unguarded(value, 0, env, depth) == Some(Resolve(value, env, {}))
  {
    hide Refs, Reached, Usable;
    var keys := ReachedKeys(env, value);
    ReachedClosed(env, value);
    assert NoCycleIn(env, keys);
    SizeAtMost(keys, env.Keys);
    var rank := RankRest(env, keys, keys, map[]);
    GuardNeverFires(value, 0, env, rank, |keys|, {}, depth);
  }

  lemma {:induction false} CutOffInside(value: string, i: nat, env: Env, key: string, depth: nat)
    requires i <= |value| && key in Refs(value, i) && Usable(env, key)
    requires depth > 0 ==> Unguarded(env[key], 0, env, depth - 1) == None
    ensures Unguarded(value, i, env, depth) == None
    decreases |value| - i
  {
    hide MatchAt, Blank;
    match MatchAt(value, i)
    case None => CutOffInside(value, i + 1, env, key, depth);
    case Some(m) => if m.key != key { CutOffInside(value, m.end, env, key, depth); }
  }

  lemma {:induction false} CycleCutOff(env: Env, cycle: seq<string>, n: nat, depth: nat)
    requires IsCycle(env, cycle) && n < |cycle| - 1
    ensures cycle[n] in env && Unguarded(env[cycle[n]], 0, env, depth) == None
    decreases depth
  {
    hide Unguarded, Refs, Blank;
    assert Edge(env, cycle[n], cycle[n + 1]);
    if depth > 0 { CycleCutOff(env, cycle, if n + 1 == |cycle| - 1 then 0 else n + 1, depth - 1); }
    CutOffInside(env[cycle[n]], 0, env, cycle[n + 1], depth);
  }

  predicate Ends(value: string, env: Env, depth: nat) { Unguarded(value, 0, env, depth).Some? }

  ghost predicate NeverEnds(value: string, env: Env) { forall depth: nat :: !Ends(value, env, depth) }

  /** What is cut off at the end of a path at every depth is cut off all along it. */
  lemma {:induction false} PathCutOff(env: Env, path: seq<string>, n: nat, depth: nat)
    requires IsWalk(env, path) && n < |path| && path[|path| - 1] in env && (n < |path| - 1 ==> path[n] in env)
    requires NeverEnds(env[path[|path| - 1]], env)
    ensures Unguarded(env[path[n]], 0, env, depth) == None
    decreases |path| - n
  {
    hide Unguarded, Refs, Blank;
    if n == |path| - 1 {
      assert !Ends(env[path[n]], env, depth);
    } else {
      assert Edge(env, path[n], path[n + 1]);
      if depth > 0 { PathCutOff(env, path, n + 1, depth - 1); }
      CutOffInside(env[path[n]], 0, env, path[n + 1], depth);
    }
  }

  /** From a value that reaches a cycle the resolver without the guard ends at no depth. */
  lemma CycleNeverEnds(value: string, env: Env, depth: nat)
    requires ReachesCycle(env, value)
    ensures Unguarded(value, 0, env, depth) == None
  {
    hide Unguarded, Refs, Blank;
    var cycle :| IsCycle(env, cycle) && Reached(env, value, cycle[0]);
    var path :| WalkFrom(env, value, path) && path[|path| - 1] == cycle[0];
    assert cycle[0] in env by { CycleCutOff(env, cycle, 0, 0); }
    forall d: nat ensures !Ends(env[cycle[0]], env, d) { CycleCutOff(env, cycle, 0, d); }
    if depth > 0 { PathCutOff(env, path, 0, depth - 1); }
    CutOffInside(value, 0, env, path[0], depth);
  }

  /** The exact condition: the resolver without the guard ends on a value if and only if no cycle is
      reached from it through usable references. */
  lemma EndsIffNoCycleReached(value: string, env: Env)
    ensures (exists depth: nat :: Ends(value, env, depth)) <==> !ReachesCycle(env, value)
  {
    hide Unguarded, ReachesCycle, Resolve;
    if ReachesCycle(env, value) {
      forall depth: nat ensures !Ends(value, env, depth) { CycleNeverEnds(value, env, depth); }
    } else {
      GuardIsInvisible(value, env, |env.Keys|);
      assert Ends(value, env, |env.Keys|);
    }
  }

  // ---- what the guard means on maps with cycles ----

  /** Following a key is resolving its value in the map without that key: seen keys behave exactly as
      missing ones. This holds on every map, with cycles or without. */
  lemma {:induction false} SeenKeysAreMissing(value: string, i: nat, env: Env, gone: set<string>, seen: set<string>)
    requires i <= |value|
    ensures ResolveFrom(value, i, env, gone + seen) == ResolveFrom(value, i, env - gone, seen)
    decreases |Unseen(env, gone + seen)|, |value| - i
  {
    hide MatchAt, Blank;
    if i < |value| {
      match MatchAt(value, i)
      case None => SeenKeysAreMissing(value, i + 1, env, gone, seen);
      case Some(m) =>
        SeenKeysAreMissing(value, m.end, env, gone, seen);
        if m.key !in gone + seen && Usable(env, m.key) {
          UnseenShrinks(env, gone + seen, m.key);
          assert gone + seen + {m.key} == gone + (seen + {m.key});
          SeenKeysAreMissing(env[m.key], 0, env, gone, seen + {m.key});
          FollowsKey(m, env, gone + seen);
          FollowsKey(m, env - gone, seen);
        }
    }
  }
}
