/** Function names and namespaces (gateway/pkg/middleware/service_name.go) and the keys made of them. */
module ServiceName {

  import opened Service

  /** `strings.LastIndex` for one character. */
  function LastIndex(s: string, c: char): (r: int)
    ensures -1 <= r < |s|
    ensures r == -1 <==> c !in s
    ensures r >= 0 ==> s[r] == c && c !in s[r + 1..]
  {
    if s == "" then -1
    else if s[|s| - 1] == c then |s| - 1
    else
      var r := LastIndex(s[..|s| - 1], c);
      assert s == s[..|s| - 1] + [s[|s| - 1]];
      assert r >= 0 ==> s[r + 1..] == s[..|s| - 1][r + 1..] + [s[|s| - 1]];
      r
  }

  function GetNamespace(defaultNamespace: string, fullName: string): Pair {
    var index := LastIndex(fullName, '.');
    if index > -1 then Pair(fullName[..index], fullName[index + 1..])
    else Pair(fullName, defaultNamespace)
  }

  /** `functionName + "." + namespace`: the cache key, and the tail of the single-flight keys. */
  function CacheKey(p: Pair): string {
    p.name + "." + p.namespace
  }

  function GetKey(p: Pair): string {
    "GetReplicas-" + CacheKey(p)
  }

  function SetKey(p: Pair): string {
    "SetReplicas-" + CacheKey(p)
  }

  predicate DotFree(s: string) {
    '.' !in s
  }

  /** The dot that a split happens at is the only one with no dot after it. */
  lemma SplitUnique(a: string, b: string, c: string, d: string)
    requires a + "." + b == c + "." + d
    requires DotFree(b) && DotFree(d)
    ensures a == c && b == d
  {
    var s := a + "." + b;
    assert s[|a|] == '.' && s[|c|] == '.';
    assert s[|a| + 1..] == b && s[|c| + 1..] == d;
    assert forall i :: |a| < i < |s| ==> s[i] == b[i - |a| - 1];
    assert forall i :: |c| < i < |s| ==> s[i] == d[i - |c| - 1];
    assert a == s[..|a|] && c == s[..|c|];
  }

  /** Splitting a joined name gives the parts back exactly when the namespace has no dot. */
  lemma JoinThenSplit(defaultNamespace: string, p: Pair)
    ensures GetNamespace(defaultNamespace, CacheKey(p)) == p <==> DotFree(p.namespace)
  {
    var full := CacheKey(p);
    var q := GetNamespace(defaultNamespace, full);
    assert full[|p.name|] == '.';
    SplitThenJoin(defaultNamespace, full);
    if DotFree(p.namespace) {
      SplitUnique(p.name, p.namespace, q.name, q.namespace);
    }
  }

  /** A name with a dot is rebuilt from its parts; one without is the default namespace's. */
  lemma SplitThenJoin(defaultNamespace: string, fullName: string)
    ensures var p := GetNamespace(defaultNamespace, fullName);
            && (!DotFree(fullName) ==> CacheKey(p) == fullName && DotFree(p.namespace))
            && (DotFree(fullName) ==> p == Pair(fullName, defaultNamespace))
  {
    var index := LastIndex(fullName, '.');
    if index >= 0 {
      assert fullName == fullName[..index] + "." + fullName[index + 1..];
    }
  }

  /** `q` is `p` with the last `"." + moved` of its name moved to the front of its namespace. */
  ghost predicate Shifted(p: Pair, q: Pair) {
    exists moved: string :: p.name == q.name + "." + moved && q.namespace == moved + "." + p.namespace
  }

  lemma ShiftedByLength(p: Pair, q: Pair)
    requires CacheKey(p) == CacheKey(q) && |q.name| < |p.name|
    ensures Shifted(p, q)
  {
    var s := CacheKey(p);
    var moved := s[|q.name| + 1..|p.name|];
    assert s[|q.name|] == '.' && s[|p.name|] == '.';
    assert p.name == s[..|p.name|] == s[..|q.name|] + "." + moved;
    assert q.namespace == s[|q.name| + 1..] == moved + "." + s[|p.name| + 1..];
    assert q.name == s[..|q.name|] && p.namespace == s[|p.name| + 1..];
    assert p.name == q.name + "." + moved && q.namespace == moved + "." + p.namespace;
  }

  /** Which pairs share a key: equal ones, and those that place the split at another dot. */
  lemma KeysCollide(p: Pair, q: Pair)
    ensures CacheKey(p) == CacheKey(q) <==> p == q || Shifted(p, q) || Shifted(q, p)
  {
    if CacheKey(p) == CacheKey(q) {
      if |q.name| < |p.name| {
        ShiftedByLength(p, q);
      } else if |p.name| < |q.name| {
        ShiftedByLength(q, p);
      } else {
        assert p.name == CacheKey(p)[..|p.name|] && q.name == CacheKey(q)[..|q.name|];
        assert p.namespace == CacheKey(p)[|p.name| + 1..] && q.namespace == CacheKey(q)[|q.name| + 1..];
      }
    }
    ShiftedSharesKey(p, q);
    ShiftedSharesKey(q, p);
  }

  lemma ShiftedSharesKey(p: Pair, q: Pair)
    ensures Shifted(p, q) ==> CacheKey(p) == CacheKey(q)
  {
    if moved: string :| p.name == q.name + "." + moved && q.namespace == moved + "." + p.namespace {
      assert CacheKey(p) == q.name + "." + moved + "." + p.namespace == CacheKey(q);
    }
  }

  lemma KeysInjective(p: Pair, q: Pair)
    requires DotFree(p.namespace) && DotFree(q.namespace)
    ensures CacheKey(p) == CacheKey(q) <==> p == q
    ensures GetKey(p) == GetKey(q) <==> p == q
    ensures SetKey(p) == SetKey(q) <==> p == q
  {
    if CacheKey(p) == CacheKey(q) {
      SplitUnique(p.name, p.namespace, q.name, q.namespace);
    }
    assert GetKey(p)[12..] == CacheKey(p) && GetKey(q)[12..] == CacheKey(q);
    assert SetKey(p)[12..] == CacheKey(p) && SetKey(q)[12..] == CacheKey(q);
  }

  /** No two of these functions place the split of one text at different dots. */
  ghost predicate KeysApart(pairs: iset<Pair>) {
    forall p, q :: p in pairs && q in pairs ==> !Shifted(p, q)
  }

  /** Keys tell the functions of a set from each other exactly when no two of them are shifted. */
  lemma ApartMeansInjective(pairs: iset<Pair>)
    ensures KeysApart(pairs) <==>
            forall p, q :: p in pairs && q in pairs && CacheKey(p) == CacheKey(q) ==> p == q
  {
    forall p, q | p in pairs && q in pairs
      ensures CacheKey(p) == CacheKey(q) <==> p == q || Shifted(p, q) || Shifted(q, p)
      ensures !Shifted(p, p)
    {
      KeysCollide(p, q);
    }
    if p, q :| p in pairs && q in pairs && Shifted(p, q) {
      KeysCollide(p, q);
      assert p != q;
    }
  }

  lemma ApartKeys(pairs: iset<Pair>, p: Pair, q: Pair)
    requires KeysApart(pairs) && p in pairs && q in pairs
    ensures CacheKey(p) == CacheKey(q) <==> p == q
    ensures GetKey(p) == GetKey(q) <==> p == q
  {
    KeysCollide(p, q);
    assert GetKey(p)[12..] == CacheKey(p) && GetKey(q)[12..] == CacheKey(q);
  }

  lemma DotFreeIsApart(p: Pair, q: Pair)
    requires DotFree(p.namespace) && DotFree(q.namespace)
    ensures !Shifted(p, q)
  {
    ShiftedSharesKey(p, q);
    if Shifted(p, q) {
      KeysInjective(p, q);
    }
  }

  /** The functions that requests can name. */
  ghost predicate Routed(defaultNamespace: string, p: Pair) {
    exists full: string :: p == GetNamespace(defaultNamespace, full)
  }

  /**
   Requests for different functions never share a key exactly when the default namespace has no
   dot: with one, the names "a" and "a." followed by it are different functions under one key.
   */
  lemma RoutedKeysApartIffDefaultIsDotFree(defaultNamespace: string)
    ensures KeysApart(iset p: Pair | Routed(defaultNamespace, p)) <==> DotFree(defaultNamespace)
  {
    var routed := iset p: Pair | Routed(defaultNamespace, p);
    if DotFree(defaultNamespace) {
      forall p, q | p in routed && q in routed ensures !Shifted(p, q) {
        RoutedIsDotFree(defaultNamespace, p);
        RoutedIsDotFree(defaultNamespace, q);
        DotFreeIsApart(p, q);
      }
    } else {
      DottedDefaultCollides(defaultNamespace);
      var p, q := Pair("a", defaultNamespace), GetNamespace(defaultNamespace, "a." + defaultNamespace);
      assert p == GetNamespace(defaultNamespace, "a");
      assert p in routed && q in routed;
      ApartMeansInjective(routed);
    }
  }

  lemma RoutedIsDotFree(defaultNamespace: string, p: Pair)
    requires DotFree(defaultNamespace) && Routed(defaultNamespace, p)
    ensures DotFree(p.namespace)
  {
    var full :| p == GetNamespace(defaultNamespace, full);
    SplitThenJoin(defaultNamespace, full);
  }

  lemma DottedDefaultCollides(defaultNamespace: string)
    requires !DotFree(defaultNamespace)
    ensures var p, q := GetNamespace(defaultNamespace, "a"), GetNamespace(defaultNamespace, "a." + defaultNamespace);
            p == Pair("a", defaultNamespace) && p != q && CacheKey(p) == CacheKey(q)
  {
    var full := "a." + defaultNamespace;
    assert DotFree("a");
    assert full[1] == '.';
    SplitThenJoin(defaultNamespace, "a");
    SplitThenJoin(defaultNamespace, full);
    assert CacheKey(Pair("a", defaultNamespace)) == full;
  }

  /** The cache keys and the single-flight keys of two requests are equal only for equal functions. */
  predicate RoutedKeysTell(defaultNamespace: string, full1: string, full2: string) {
    var p, q := GetNamespace(defaultNamespace, full1), GetNamespace(defaultNamespace, full2);
    && (CacheKey(p) == CacheKey(q) <==> p == q)
    && (GetKey(p) == GetKey(q) <==> p == q)
    && (SetKey(p) == SetKey(q) <==> p == q)
  }

  /**
   Whatever names requests carry, their keys tell the functions from each other exactly when the
   default namespace has no dot, and a query never shares a flight with an update.
   */
  lemma RoutedKeysInjective(defaultNamespace: string)
    ensures (forall full1, full2 :: RoutedKeysTell(defaultNamespace, full1, full2)) <==> DotFree(defaultNamespace)
    ensures forall p, q :: GetKey(p) != SetKey(q)
  {
    forall p, q ensures GetKey(p) != SetKey(q) {
      assert GetKey(p)[0] == 'G' && SetKey(q)[0] == 'S';
    }
    if DotFree(defaultNamespace) {
      forall full1, full2 ensures RoutedKeysTell(defaultNamespace, full1, full2) {
        SplitThenJoin(defaultNamespace, full1);
        SplitThenJoin(defaultNamespace, full2);
        KeysInjective(GetNamespace(defaultNamespace, full1), GetNamespace(defaultNamespace, full2));
      }
    } else {
      DottedDefaultCollides(defaultNamespace);
      assert !RoutedKeysTell(defaultNamespace, "a", "a." + defaultNamespace);
    }
  }
}
