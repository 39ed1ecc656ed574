/** The `$ilike` operator the machine filters are written in: a SQL LIKE
    pattern (`%` any run of characters, `_` any one character) matched without
    regard to letter case. */
module Matching {

  /** Case folding of one character (ASCII letters only). */
  function Fold(c: char): char {
    if 'A' <= c <= 'Z' then (c as int - 'A' as int + 'a' as int) as char else c
  }

  /** Text with no character that LIKE treats specially: neither wildcard,
      nor the backslash, which is LIKE's default escape character. */
  predicate NoWildcards(s: string) {
    forall i :: 0 <= i < |s| ==> s[i] != '%' && s[i] != '_' && s[i] != '\\'
  }

  /** The pattern the handler writes for "contains v": `%v%`. The value is put
      in as it is; a `%` or `_` inside `v` stays a wildcard. */
  function SubstringPattern(v: string): (p: string)
    ensures |p| == |v| + 2 && p[0] == '%' && p[|p| - 1] == '%'
    ensures p[1..|p| - 1] == v
  {
    "%" + v + "%"
  }

  /** Whether `text` matches the LIKE `pattern`, case-insensitively. */
  predicate ILike(pattern: string, text: string)
    decreases |pattern| + |text|
  {
    if pattern == [] then text == []
    else if pattern[0] == '%' then
      ILike(pattern[1..], text) || (text != [] && ILike(pattern, text[1..]))
    else
      && text != []
      && (pattern[0] == '_' || Fold(pattern[0]) == Fold(text[0]))
      && ILike(pattern[1..], text[1..])
  }

  /** `v` is a prefix of `t` up to letter case. */
  predicate FoldedPrefix(v: string, t: string) {
    |v| <= |t| && forall i :: 0 <= i < |v| ==> Fold(v[i]) == Fold(t[i])
  }

  /** `v` occurs somewhere in `t` up to letter case: the reference meaning of
      a case-insensitive substring search. */
  predicate ContainsFolded(t: string, v: string) {
    exists i :: 0 <= i <= |t| && FoldedPrefix(v, t[i..])
  }

  /** A lone `%` matches every text. */
  lemma {:induction false} PercentMatchesAll(t: string)
    ensures ILike("%", t)
    decreases |t|
  {
    assert "%"[1..] == [];
    if t != [] {
      PercentMatchesAll(t[1..]);
    }
  }

  /** A wildcard-free `v` followed by `%` matches exactly the texts that start
      with `v` up to letter case. */
  lemma {:induction false} PrefixPattern(v: string, t: string)
    requires NoWildcards(v)
    ensures ILike(v + "%", t) <==> FoldedPrefix(v, t)
    decreases |v|
  {
    if v == [] {
      assert v + "%" == "%";
      PercentMatchesAll(t);
    } else {
      var p := v + "%";
      assert p[0] == v[0] && p[1..] == v[1..] + "%";
      assert NoWildcards(v[1..]) by {
        forall i | 0 <= i < |v[1..]| ensures v[1..][i] != '%' && v[1..][i] != '_' {
          assert v[1..][i] == v[i + 1];
        }
      }
      if t == [] {
        assert !FoldedPrefix(v, t);
      } else {
        PrefixPattern(v[1..], t[1..]);
        if FoldedPrefix(v, t) {
          forall i | 0 <= i < |v[1..]| ensures Fold(v[1..][i]) == Fold(t[1..][i]) {
            assert Fold(v[i + 1]) == Fold(t[i + 1]);
          }
        }
        if Fold(v[0]) == Fold(t[0]) && FoldedPrefix(v[1..], t[1..]) {
          forall i | 0 <= i < |v| ensures Fold(v[i]) == Fold(t[i]) {
            if i > 0 {
              assert v[1..][i - 1] == v[i] && t[1..][i - 1] == t[i];
            }
          }
        }
      }
    }
  }

  /** A leading `%` lets the rest of the pattern match any suffix. */
  lemma {:induction false} LeadingPercent(w: string, t: string)
    ensures ILike("%" + w, t) <==> exists i :: 0 <= i <= |t| && ILike(w, t[i..])
    decreases |t|
  {
    var p := "%" + w;
    assert p[0] == '%' && p[1..] == w;
    assert t[0..] == t;
    if t != [] {
      LeadingPercent(w, t[1..]);
      if ILike(p, t[1..]) {
        var i :| 0 <= i <= |t[1..]| && ILike(w, t[1..][i..]);
        assert t[1..][i..] == t[i + 1..];
      }
      if exists i :: 0 <= i <= |t| && ILike(w, t[i..]) {
        var i :| 0 <= i <= |t| && ILike(w, t[i..]);
        if i > 0 {
          assert t[1..][i - 1..] == t[i..];
        }
      }
    }
  }

  /** The handler's `%v%` pattern, for a wildcard-free `v`, matches exactly
      the texts that contain `v` up to letter case. */
  lemma SubstringPatternMeaning(v: string, t: string)
    requires NoWildcards(v)
    ensures ILike(SubstringPattern(v), t) <==> ContainsFolded(t, v)
  {
    assert SubstringPattern(v) == "%" + (v + "%");
    LeadingPercent(v + "%", t);
    forall i | 0 <= i <= |t| ensures ILike(v + "%", t[i..]) <==> FoldedPrefix(v, t[i..]) {
      PrefixPattern(v, t[i..]);
    }
  }

  /** The value is not escaped: the search text "%" gives the pattern "%%%",
      which matches every text. */
  lemma UnescapedPercentMatchesAll(t: string)
    ensures ILike(SubstringPattern("%"), t)
  {
    assert SubstringPattern("%") == "%%%";
    assert "%%%"[1..] == "%%" && "%%"[1..] == "%";
    PercentMatchesAll(t);
  }
}
