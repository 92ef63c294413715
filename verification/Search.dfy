/** The substring filter of the shipment search: escaping a value and matching it with ILIKE. */
module Search {

  /** Replace every occurrence of one character by a string. */
  function Replace(s: string, c: char, text: string): string {
    if s == [] then [] else (if s[0] == c then text else [s[0]]) + Replace(s[1..], c, text)
  }

  /** The three replacements, backslash first. */
  function Escaped(value: string): string {
    Replace(Replace(Replace(value, '\\', "\\\\"), '%', "\\%"), '_', "\\_")
  }

  predicate Special(c: char) {
    c == '\\' || c == '%' || c == '_'
  }

  /** Each special character preceded by the escape character, in one pass. */
  function EscapeEach(value: string): string {
    if value == [] then [] else (if Special(value[0]) then ['\\', value[0]] else [value[0]]) + EscapeEach(value[1..])
  }

  lemma ReplaceCons(s: string, c: char, text: string)
    ensures s == [] ==> Replace(s, c, text) == []
    ensures s != [] ==> Replace(s, c, text) == (if s[0] == c then text else [s[0]]) + Replace(s[1..], c, text)
  {
  }

  lemma {:induction false} ReplaceConcat(a: string, b: string, c: char, text: string)
    ensures Replace(a + b, c, text) == Replace(a, c, text) + Replace(b, c, text)
  {
    hide *;
    ReplaceCons(a, c, text);
    if a == [] {
      assert a + b == b;
    } else {
      ReplaceConcat(a[1..], b, c, text);
      ReplaceCons(a + b, c, text);
      assert (a + b)[0] == a[0] && (a + b)[1..] == a[1..] + b;
    }
  }

  /** The order of the replacements is right: no escape character is itself escaped again. */
  lemma {:induction false} ThreeReplacesEscapeEach(value: string)
    ensures Escaped(value) == EscapeEach(value)
  {
    if value != [] {
      var first, rest := [value[0]], value[1..];
      assert value == first + rest;
      ThreeReplacesEscapeEach(rest);
      ReplaceConcat(first, rest, '\\', "\\\\");
      var one, one' := Replace(first, '\\', "\\\\"), Replace(rest, '\\', "\\\\");
      ReplaceConcat(one, one', '%', "\\%");
      var two, two' := Replace(one, '%', "\\%"), Replace(one', '%', "\\%");
      ReplaceConcat(two, two', '_', "\\_");
      EscapeOne(value[0]);
    }
  }

  lemma ReplaceOne(c: char, d: char, text: string)
    ensures Replace([c], d, text) == if c == d then text else [c]
  {
    assert [c][1..] == [];
    assert Replace([], d, text) == [];
    assert text + [] == text;
  }

  lemma ReplaceTwo(a: char, b: char, d: char, text: string)
    requires a != d
    ensures Replace([a, b], d, text) == [a] + (if b == d then text else [b])
  {
    assert [a, b] == [a] + [b];
    ReplaceConcat([a], [b], d, text);
    ReplaceOne(a, d, text);
    ReplaceOne(b, d, text);
  }

  lemma EscapeOne(c: char)
    ensures Escaped([c]) == if Special(c) then ['\\', c] else [c]
  {
    ReplaceOne(c, '\\', "\\\\");
    if c == '\\' {
      ReplaceTwo('\\', '\\', '%', "\\%");
      ReplaceTwo('\\', '\\', '_', "\\_");
    } else {
      ReplaceOne(c, '%', "\\%");
      if c == '%' {
        ReplaceTwo('\\', '%', '_', "\\_");
      } else {
        ReplaceOne(c, '_', "\\_");
      }
    }
  }

  /** LIKE with escape character backslash: `%` matches any string, `_` any character (ISO/IEC 9075-2, section 8.5). */
  predicate Like(pattern: string, s: string)
    decreases |pattern| + |s|
  {
    if pattern == [] then s == []
    else if pattern[0] == '\\' then
      |pattern| >= 2 && s != [] && s[0] == pattern[1] && Like(pattern[2..], s[1..])
    else if pattern[0] == '%' then Like(pattern[1..], s) || (s != [] && Like(pattern, s[1..]))
    else s != [] && (pattern[0] == '_' || pattern[0] == s[0]) && Like(pattern[1..], s[1..])
  }

  function Fold(fold: char -> char, s: string): (r: string)
    ensures |r| == |s|
    ensures forall i :: 0 <= i < |s| ==> r[i] == fold(s[i])
  {
    seq(|s|, i requires 0 <= i < |s| => fold(s[i]))
  }

  /** Case folding leaves the special characters alone and makes no other character special. */
  ghost predicate KeepsSpecials(fold: char -> char) {
    forall c :: (Special(c) || Special(fold(c))) ==> fold(c) == c
  }

  /** ILIKE is LIKE on folded pattern and string. */
  predicate ILike(fold: char -> char, pattern: string, s: string) {
    Like(Fold(fold, pattern), Fold(fold, s))
  }

  /** The pattern the repository builds. */
  function ContainsPattern(value: string): string {
    "%" + Escaped(value) + "%"
  }

  predicate OccursAt(value: string, s: string, i: int) {
    0 <= i <= |s| - |value| && forall j :: 0 <= j < |value| ==> value[j] == s[i + j]
  }

  predicate Substring(value: string, s: string) {
    exists i | 0 <= i <= |s| :: OccursAt(value, s, i)
  }

  /** `%` alone matches everything. */
  lemma {:induction false} PercentMatchesAll(s: string)
    ensures Like("%", s)
  {
    assert "%"[1..] == [];
    if s != [] {
      PercentMatchesAll(s[1..]);
    }
  }

  /** An escaped value followed by `%` matches exactly the strings that begin with the value. */
  lemma {:induction false} EscapedMatchesPrefix(value: string, s: string)
    ensures Like(EscapeEach(value) + "%", s) <==> value <= s
  {
    var pattern := EscapeEach(value) + "%";
    if value == [] {
      assert pattern == "%";
      PercentMatchesAll(s);
    } else {
      var c, rest := value[0], value[1..];
      var tail := EscapeEach(rest) + "%";
      if Special(c) {
        assert pattern[0] == '\\' && pattern[1] == c && pattern[2..] == tail;
      } else {
        assert pattern[0] == c && pattern[1..] == tail;
      }
      if s != [] {
        EscapedMatchesPrefix(rest, s[1..]);
        PrefixCons(value, s);
      }
    }
  }

  /** Without the percent signs an escaped value matches itself alone, and unescaped an underscore any character. */
  lemma {:induction false} EscapedMatchesItself(value: string, s: string)
    ensures Like(EscapeEach(value), s) <==> s == value
    ensures Like("_", s) <==> |s| == 1
  {
    assert "_"[1..] == [];
    if value != [] {
      var c, rest, pattern := value[0], value[1..], EscapeEach(value);
      assert value == [c] + rest;
      if Special(c) {
        assert pattern[0] == '\\' && pattern[1] == c && pattern[2..] == EscapeEach(rest);
      } else {
        assert pattern[0] == c && pattern[1..] == EscapeEach(rest);
      }
      if s != [] {
        EscapedMatchesItself(rest, s[1..]);
        assert s == [s[0]] + s[1..];
      }
    }
  }

  lemma PrefixCons(value: string, s: string)
    requires value != [] && s != []
    ensures value <= s <==> value[0] == s[0] && value[1..] <= s[1..]
  {
    if value[0] == s[0] && value[1..] <= s[1..] {
      assert value == [value[0]] + value[1..];
      assert s == [s[0]] + s[1..];
      forall i | 0 <= i < |value| ensures value[i] == s[i] {
        if i > 0 {
          assert value[1..][i - 1] == s[1..][i - 1];
        }
      }
    }
  }

  /** A leading `%` looks for the rest of the pattern at any position. */
  lemma {:induction false} PercentSearches(pattern: string, s: string)
    ensures Like("%" + pattern, s) <==> exists i :: 0 <= i <= |s| && Like(pattern, s[i..])
    decreases |s|
  {
    var full := "%" + pattern;
    assert full[1..] == pattern;
    assert s[0..] == s;
    if s != [] {
      PercentSearches(pattern, s[1..]);
      forall i | 0 <= i <= |s| - 1 ensures s[1..][i..] == s[i + 1..] {}
      if i :| 0 <= i <= |s| && Like(pattern, s[i..]) {
        if i > 0 {
          assert s[1..][i - 1..] == s[i..];
        }
      }
    }
  }

  lemma OccursMeansPrefix(value: string, s: string, i: int)
    requires 0 <= i <= |s|
    ensures OccursAt(value, s, i) <==> value <= s[i..]
  {
    if value <= s[i..] {
      assert forall j :: 0 <= j < |value| ==> value[j] == s[i..][j] == s[i + j];
    }
  }

  lemma FoldConcat(fold: char -> char, a: string, b: string)
    ensures Fold(fold, a + b) == Fold(fold, a) + Fold(fold, b)
  {
  }

  lemma FoldHead(fold: char -> char, value: string)
    requires KeepsSpecials(fold) && value != []
    ensures Fold(fold, value)[1..] == Fold(fold, value[1..])
    ensures Fold(fold, if Special(value[0]) then ['\\', value[0]] else [value[0]]) ==
            if Special(Fold(fold, value)[0]) then ['\\', Fold(fold, value)[0]] else [Fold(fold, value)[0]]
    ensures EscapeEach(Fold(fold, value)) ==
            (if Special(Fold(fold, value)[0]) then ['\\', Fold(fold, value)[0]] else [Fold(fold, value)[0]])
            + EscapeEach(Fold(fold, value)[1..])
  {
    assert Special('\\');
  }

  lemma {:induction false} FoldEscape(fold: char -> char, value: string)
    requires KeepsSpecials(fold)
    ensures Fold(fold, EscapeEach(value)) == EscapeEach(Fold(fold, value))
  {
    if value != [] {
      FoldEscape(fold, value[1..]);
      var head := if Special(value[0]) then ['\\', value[0]] else [value[0]];
      assert EscapeEach(value) == head + EscapeEach(value[1..]);
      FoldHead(fold, value);
      FoldConcat(fold, head, EscapeEach(value[1..]));
      hide EscapeEach;
    }
  }

  /** The filter finds exactly the strings that contain the value, up to case, whatever characters it has. */
  lemma FilterFindsSubstrings(fold: char -> char, value: string, s: string)
    requires KeepsSpecials(fold)
    ensures ILike(fold, ContainsPattern(value), s) <==> Substring(Fold(fold, value), Fold(fold, s))
  {
    var v, t := Fold(fold, value), Fold(fold, s);
    ThreeReplacesEscapeEach(value);
    FoldEscape(fold, value);
    assert Special('%');
    var pattern := EscapeEach(v) + "%";
    assert Fold(fold, ContainsPattern(value)) == "%" + pattern;
    PercentSearches(pattern, t);
    forall i | 0 <= i <= |t| ensures Like(pattern, t[i..]) <==> OccursAt(v, t, i) {
      EscapedMatchesPrefix(v, t[i..]);
      OccursMeansPrefix(v, t, i);
    }
  }
}
