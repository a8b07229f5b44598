/** Invalidation patterns: the rewriting of a glob into a regular expression, and its meaning. */
module Glob {
  import opened Prelude

  // ----- the rewriting, three passes over the text

  predicate Special(c: char)
  {
    c in {'.', '+', '^', '$', '{', '}', '(', ')', '|', '[', ']', '\\'}
  }

  /** Puts a backslash before every special character. */
  function Escape(s: string): string
  {
    if s == [] then [] else (if Special(s[0]) then ['\\', s[0]] else [s[0]]) + Escape(s[1..])
  }

  /** Replaces every occurrence of one character. */
  function ReplaceAll(s: string, c: char, text: string): string
  {
    if s == [] then [] else (if s[0] == c then text else [s[0]]) + ReplaceAll(s[1..], c, text)
  }

  /** The text between ^ and $ that globToRegex builds. */
  function GlobToRegex(pattern: string): string
  {
    ReplaceAll(ReplaceAll(Escape(pattern), '*', ".*"), '?', ".")
  }

  // ----- regular expressions of the fragment that is needed

  datatype Atom = Lit(c: char) | Any | AnyStar

  /** Reads a regular expression; None for anything but literals, escapes, `.` and `.*`. */
  function Parse(re: string): Option<seq<Atom>>
    decreases |re|
  {
    if re == [] then Some([])
    else if re[0] == '\\' then
      if |re| == 1 then None else Then(Lit(re[1]), Parse(re[2..]))
    else if re[0] == '.' then
      if |re| > 1 && re[1] == '*' then Then(AnyStar, Parse(re[2..])) else Then(Any, Parse(re[1..]))
    else if Special(re[0]) || re[0] == '*' || re[0] == '?' then None
    else Then(Lit(re[0]), Parse(re[1..]))
  }

  function Then(a: Atom, rest: Option<seq<Atom>>): Option<seq<Atom>>
  {
    if rest.Some? then Some([a] + rest.value) else None
  }

  /** What `.` does not match. */
  predicate LineTerminator(c: char)
  {
    c == '\n' || c == '\r' || c == '\U{2028}' || c == '\U{2029}'
  }

  predicate Plain(key: string)
  {
    forall i :: 0 <= i < |key| ==> !LineTerminator(key[i])
  }

  /** The whole of `key` matches. */
  predicate Matches(re: seq<Atom>, key: string)
  {
    if re == [] then key == []
    else
      match re[0]
      case Lit(c) => key != [] && key[0] == c && Matches(re[1..], key[1..])
      case Any => key != [] && !LineTerminator(key[0]) && Matches(re[1..], key[1..])
      case AnyStar => exists n :: 0 <= n <= |key| && Plain(key[..n]) && Matches(re[1..], key[n..])
  }

  // ----- the language of a glob

  /** `*` stands for any text, `?` for any character, everything else for itself. */
  predicate Denotes(pattern: string, key: string)
  {
    if pattern == [] then key == []
    else if pattern[0] == '*' then exists n :: 0 <= n <= |key| && Denotes(pattern[1..], key[n..])
    else key != [] && (pattern[0] == '?' || pattern[0] == key[0]) && Denotes(pattern[1..], key[1..])
  }

  /** regex.test(key) */
  predicate Test(pattern: string, key: string)
  {
    var re := Parse(GlobToRegex(pattern));
    re.Some? && Matches(re.value, key)
  }

  // ----- the rewriting denotes the glob

  function AtomOf(c: char): Atom
  {
    if c == '*' then AnyStar else if c == '?' then Any else Lit(c)
  }

  function Atoms(pattern: string): seq<Atom>
  {
    if pattern == [] then [] else [AtomOf(pattern[0])] + Atoms(pattern[1..])
  }

  /** What one pattern character becomes after all three passes. */
  function Piece(c: char): string
  {
    if Special(c) then ['\\', c] else if c == '*' then ".*" else if c == '?' then "." else [c]
  }

  lemma {:induction false} ReplaceAllConcat(s: string, t: string, c: char, text: string)
    ensures ReplaceAll(s + t, c, text) == ReplaceAll(s, c, text) + ReplaceAll(t, c, text)
  {
    if s == [] {
      assert s + t == t;
    } else {
      ReplaceAllConcat(s[1..], t, c, text);
      assert (s + t)[1..] == s[1..] + t;
    }
  }

  lemma {:induction false} ReplaceOne(x: char, c: char, text: string)
    ensures ReplaceAll([x], c, text) == if x == c then text else [x]
  {}

  lemma {:induction false} ReplaceTwo(x: char, y: char, c: char, text: string)
    requires x != c && y != c
    ensures ReplaceAll([x, y], c, text) == [x, y]
  {
    ReplaceOne(y, c, text);
    assert [x, y][1..] == [y];
  }

  lemma {:induction false} RewriteOne(c: char)
    ensures ReplaceAll(ReplaceAll(if Special(c) then ['\\', c] else [c], '*', ".*"), '?', ".") == Piece(c)
  {
    if Special(c) {
      ReplaceTwo('\\', c, '*', ".*");
      ReplaceTwo('\\', c, '?', ".");
    } else {
      ReplaceOne(c, '*', ".*");
      ReplaceOne(c, '?', ".");
      ReplaceTwo('.', '*', '?', ".");
    }
  }

  lemma {:induction false} RewriteStep(pattern: string)
    requires pattern != []
    ensures GlobToRegex(pattern) == Piece(pattern[0]) + GlobToRegex(pattern[1..])
  {
    var head := if Special(pattern[0]) then ['\\', pattern[0]] else [pattern[0]];
    var tail := Escape(pattern[1..]);
    ReplaceAllConcat(head, tail, '*', ".*");
    ReplaceAllConcat(ReplaceAll(head, '*', ".*"), ReplaceAll(tail, '*', ".*"), '?', ".");
    RewriteOne(pattern[0]);
  }

  /** No quantifier can attach to what comes before a rewritten pattern. */
  lemma {:induction false} NeverStartsWithStar(pattern: string)
    ensures GlobToRegex(pattern) == [] || GlobToRegex(pattern)[0] != '*'
  {}

  lemma {:induction false} ParsePiece(c: char, rest: string)
    requires rest == [] || rest[0] != '*'
    ensures Parse(Piece(c) + rest) == Then(AtomOf(c), Parse(rest))
  {}

  lemma {:induction false} ParsesToAtoms(pattern: string)
    ensures Parse(GlobToRegex(pattern)) == Some(Atoms(pattern))
  {
    if pattern != [] {
      var c, rest := pattern[0], GlobToRegex(pattern[1..]);
      RewriteStep(pattern);
      ParsesToAtoms(pattern[1..]);
      NeverStartsWithStar(pattern[1..]);
      ParsePiece(c, rest);
    }
  }

  lemma {:induction false} AtomsDenote(pattern: string, key: string)
    requires Plain(key)
    ensures Matches(Atoms(pattern), key) <==> Denotes(pattern, key)
    decreases |pattern|
  {
    if pattern != [] {
      var rest := pattern[1..];
      assert Atoms(pattern)[1..] == Atoms(rest);
      if pattern[0] == '*' {
        forall n | 0 <= n <= |key| ensures Matches(Atoms(rest), key[n..]) <==> Denotes(rest, key[n..]) {
          AtomsDenote(rest, key[n..]);
        }
        assert forall n :: 0 <= n <= |key| ==> Plain(key[..n]);
      } else if key != [] {
        AtomsDenote(rest, key[1..]);
      }
    }
  }

  /** For every pattern, on keys without line terminators, the rewriting means the glob. */
  lemma {:induction false} TestIsDenotes(pattern: string, key: string)
    requires Plain(key)
    ensures Test(pattern, key) <==> Denotes(pattern, key)
  {
    ParsesToAtoms(pattern);
    AtomsDenote(pattern, key);
  }

  /** The condition on keys is exact: on any other key some pattern goes wrong. */
  lemma {:induction false} RightForAllPatternsIffPlain(key: string)
    ensures (forall pattern :: Test(pattern, key) <==> Denotes(pattern, key)) <==> Plain(key)
  {
    if Plain(key) {
      forall pattern ensures Test(pattern, key) <==> Denotes(pattern, key) { TestIsDenotes(pattern, key); }
    } else {
      ParsesToAtoms("*");
      assert Atoms("*") == [AnyStar];
      assert Atoms("*")[1..] == [];
      assert "*"[1..] == [] && key[|key|..] == [];
      assert Denotes("*"[1..], key[|key|..]);
      assert Denotes("*", key);
      forall n | 0 <= n <= |key| && Matches([], key[n..]) ensures !Plain(key[..n]) {
        assert key[..n] == key;
      }
      assert !(Test("*", key) <==> Denotes("*", key));
    }
  }
}
