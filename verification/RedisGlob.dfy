/** Literal key prefixes as Redis glob patterns (src/redis_store.rs). */
module RedisGlob {

  predicate IsMeta(c: char) {
    c == '*' || c == '?' || c == '[' || c == ']' || c == '\\'
  }

  function Escaped(prefix: string): string {
    if prefix == "" then ""
    else (if IsMeta(prefix[0]) then ['\\', prefix[0]] else [prefix[0]]) + Escaped(prefix[1..])
  }

  lemma {:induction false} EscapedAppend(prefix: string, c: char)
    ensures Escaped(prefix + [c]) == Escaped(prefix) + (if IsMeta(c) then ['\\', c] else [c])
  {
    if prefix == "" {
      assert ([c])[1..] == "";
    } else {
      EscapedAppend(prefix[1..], c);
      assert (prefix + [c])[1..] == prefix[1..] + [c];
    }
  }

  /** Escape every metacharacter and match anything afterwards. */
  method PrefixPattern(prefix: string) returns (pattern: string)
    ensures pattern == Escaped(prefix) + "*"
    ensures forall key :: Glob(pattern, key) <==> prefix <= key
  {
    pattern := "";
    for k := 0 to |prefix|
      invariant pattern == Escaped(prefix[..k])
    {
      var character := prefix[k];
      assert prefix[..k + 1] == prefix[..k] + [character];
      EscapedAppend(prefix[..k], character);
      if IsMeta(character) {
        pattern := pattern + ['\\'];
      }
      pattern := pattern + [character];
    }
    assert prefix[..|prefix|] == prefix;
    pattern := pattern + ['*'];
    forall key
      ensures Glob(pattern, key) <==> prefix <= key
    {
      EscapedPrefixMatches(prefix, key);
    }
  }

  // ----- The glob language of KEYS and SCAN -----

  /** Whether `c` is in the bracket class whose members start at `p`, and what follows the class. */
  function InClass(p: string, c: char): (r: (bool, string))
    ensures |r.1| <= |p|
  {
    if p == "" then (false, "")
    else if p[0] == '\\' && |p| >= 2 then
      var (found, rest) := InClass(p[2..], c); (p[1] == c || found, rest)
    else if p[0] == ']' then (false, p[1..])
    else if |p| >= 3 && p[1] == '-' then
      var low, high := if p[0] <= p[2] then p[0] else p[2], if p[0] <= p[2] then p[2] else p[0];
      var (found, rest) := InClass(p[3..], c); (low <= c <= high || found, rest)
    else
      var (found, rest) := InClass(p[1..], c); (p[0] == c || found, rest)
  }

  /** Pattern `p` matches all of `s`. */
  predicate Glob(p: string, s: string)
    decreases |p|, |s|
  {
    if p == "" then s == ""
    else if p[0] == '*' then Glob(p[1..], s) || (s != "" && Glob(p, s[1..]))
    else if s == "" then false
    else if p[0] == '?' then Glob(p[1..], s[1..])
    else if p[0] == '[' then
      var negated := |p| >= 2 && p[1] == '^';
      var (found, rest) := InClass(if negated then p[2..] else p[1..], s[0]);
      found != negated && Glob(rest, s[1..])
    else if p[0] == '\\' && |p| >= 2 then p[1] == s[0] && Glob(p[2..], s[1..])
    else p[0] == s[0] && Glob(p[1..], s[1..])
  }

  lemma {:induction false} StarMatchesAll(s: string)
    ensures Glob("*", s)
    decreases |s|
  {
    assert "*"[1..] == "";
    if s != "" {
      StarMatchesAll(s[1..]);
    }
  }

  lemma ClassOfOne(c: char)
    ensures InClass("a]*", c) == (c == 'a', "*")
  {
    assert "a]*"[1..] == "]*" && "]*"[1..] == "*";
    assert InClass("]*", c) == (false, "*");
  }

  /** Each metacharacter, left unescaped, matches a key without the prefix or misses one with it. */
  lemma EscapingIsNeeded()
    ensures Glob("*" + "*", "a") && Glob("?" + "*", "a") && Glob("[a]" + "*", "a")
    ensures !Glob("[a]" + "*", "[a]") && !Glob("\\a" + "*", "\\a") && Glob("\\a" + "*", "a")
    ensures !Glob("?", "") && !Glob("?", "ab") && Glob("[a-c]", "b") && !Glob("[^a-c]", "b") && !Glob("a", "b")
  {
    StarMatchesAll("");
    ClassOfOne('a');
    ClassOfOne('[');
    assert "[a]" + "*" == "[a]*" && "[a]*"[1..] == "a]*";
    assert "[a]"[1..] == "a]";
    assert InClass("a-c]", 'b') == (true, "");
  }

  /** Escaping is exact: the pattern of a prefix matches the keys that start with it, and no others. */
  lemma {:induction false} EscapedPrefixMatches(prefix: string, key: string)
    ensures Glob(Escaped(prefix) + "*", key) <==> prefix <= key
    decreases |prefix|
  {
    if prefix == "" {
      assert Escaped(prefix) + "*" == "*";
      StarMatchesAll(key);
    } else {
      var c, rest := prefix[0], Escaped(prefix[1..]) + "*";
      var p := Escaped(prefix) + "*";
      if IsMeta(c) {
        assert p == ['\\', c] + rest && p[2..] == rest;
      } else {
        assert p == [c] + rest && p[1..] == rest;
      }
      assert Glob(p, key) <==> key != "" && key[0] == c && Glob(rest, key[1..]);
      if key != "" {
        EscapedPrefixMatches(prefix[1..], key[1..]);
        assert prefix == [c] + prefix[1..] && key == [key[0]] + key[1..];
        assert prefix <= key <==> c == key[0] && prefix[1..] <= key[1..];
      }
    }
  }
}
