/** The key patterns the cache accepts, a subset of Python regular
    expressions: literal characters, `.` (any character except a newline) and
    `*` (zero or more of the preceding item). Matching follows `re.match`: the
    pattern must match a prefix of the key, not the whole key. */
module Patterns {
  import opened Common

  datatype Atom = Literal(c: char) | AnyChar

  /** One item of a pattern, either once or repeated. */
  datatype Piece = One(atom: Atom) | Many(atom: Atom)

  type Regex = seq<Piece>

  datatype PatternError =
    | NothingToRepeat        // a `*` with no single item before it
    | Unsupported(c: char)   // regex syntax outside this subset

  /** Characters with a regex meaning that this subset does not cover. */
  predicate Special(c: char) {
    c in "\\[](){}?+|^$"
  }

  /** `re.compile`: fails on a malformed pattern before anything else happens. */
  function Compile(p: string): Result<Regex, PatternError>
    decreases |p|
  {
    if p == [] then Ok([])
    else
      match Compile(p[..|p| - 1])
      case Err(e) => Err(e)
      case Ok(rx) =>
        var c := p[|p| - 1];
        if c == '*' then
          if |rx| > 0 && rx[|rx| - 1].One? then Ok(rx[..|rx| - 1] + [Many(rx[|rx| - 1].atom)])
          else Err(NothingToRepeat)
        else if c == '.' then Ok(rx + [One(AnyChar)])
        else if Special(c) then Err(Unsupported(c))
        else Ok(rx + [One(Literal(c))])
  }

  predicate Accepts(a: Atom, c: char) {
    match a
    case Literal(x) => c == x
    case AnyChar => c != '\n'
  }

  /** `regex.match(s)` succeeds: some prefix of `s` matches the whole pattern. */
  predicate Matches(rx: Regex, s: string)
    decreases |s|, |rx|
  {
    if rx == [] then true
    else
      match rx[0]
      case One(a) => |s| > 0 && Accepts(a, s[0]) && Matches(rx[1..], s[1..])
      case Many(a) => Matches(rx[1..], s) || (|s| > 0 && Accepts(a, s[0]) && Matches(rx, s[1..]))
  }

  /** A pattern without any regex syntax. */
  predicate PlainText(p: string) {
    forall i :: 0 <= i < |p| ==> p[i] != '*' && p[i] != '.' && !Special(p[i])
  }

  function Literals(p: string): (rx: Regex)
    ensures |rx| == |p|
    ensures forall i :: 0 <= i < |p| ==> rx[i] == One(Literal(p[i]))
  {
    if p == [] then [] else Literals(p[..|p| - 1]) + [One(Literal(p[|p| - 1]))]
  }

  /** Plain text compiles to itself, piece by piece. */
  lemma {:induction false} CompilePlainText(p: string)
    requires PlainText(p)
    ensures Compile(p) == Ok(Literals(p))
    decreases |p|
  {
    if p != [] {
      var q := p[..|p| - 1];
      assert PlainText(q) by {
        forall i | 0 <= i < |q| ensures q[i] != '*' && q[i] != '.' && !Special(q[i]) {
          assert q[i] == p[i];
        }
      }
      CompilePlainText(q);
    }
  }

  /** A plain-text pattern selects exactly the keys it is a prefix of. */
  lemma {:induction false} PlainTextMatchesPrefixes(p: string, s: string)
    requires PlainText(p)
    ensures Compile(p).Ok?
    ensures Matches(Compile(p).value, s) <==> p <= s
  {
    CompilePlainText(p);
    LiteralsMatchPrefixes(p, s);
  }

  lemma {:induction false} LiteralsMatchPrefixes(p: string, s: string)
    ensures Matches(Literals(p), s) <==> p <= s
    decreases |p|
  {
    if p != [] {
      var rx := Literals(p);
      assert rx[0] == One(Literal(p[0]));
      assert rx[1..] == Literals(p[1..]) by {
        var tail := Literals(p[1..]);
        assert |rx[1..]| == |tail|;
        forall i | 0 <= i < |tail| ensures rx[1..][i] == tail[i] {
        }
      }
      if |s| > 0 {
        LiteralsMatchPrefixes(p[1..], s[1..]);
        assert p <= s <==> p[0] == s[0] && p[1..] <= s[1..];
      }
    }
  }

  /** Under `re.match`, a repeated item at the end of a pattern can always
      match zero times, so it never changes which keys are selected. */
  lemma {:induction false} TrailingStarChangesNothing(rx: Regex, a: Atom, s: string)
    ensures Matches(rx + [Many(a)], s) <==> Matches(rx, s)
    decreases |s|, |rx|
  {
    var rs := rx + [Many(a)];
    if rx == [] {
      assert rs[1..] == [];
    } else {
      assert rs[0] == rx[0];
      assert rs[1..] == rx[1..] + [Many(a)];
      match rx[0]
      case One(b) =>
        if |s| > 0 {
          TrailingStarChangesNothing(rx[1..], a, s[1..]);
        }
      case Many(b) =>
        TrailingStarChangesNothing(rx[1..], a, s);
        if |s| > 0 {
          TrailingStarChangesNothing(rx, a, s[1..]);
        }
    }
  }

  /** Plain text followed by `.*` compiles to its literals and one repeated
      wildcard. */
  lemma CompilePrefixStar(p: string)
    requires PlainText(p)
    ensures Compile(p + ".*") == Ok(Literals(p) + [Many(AnyChar)])
  {
    CompilePlainText(p);
    var dotted := p + ".";
    assert dotted[..|dotted| - 1] == p;
    assert Compile(dotted) == Ok(Literals(p) + [One(AnyChar)]);
    var starred := p + ".*";
    assert starred[..|starred| - 1] == dotted;
    var rx := Literals(p) + [One(AnyChar)];
    assert rx[..|rx| - 1] == Literals(p);
  }

  /** A pattern `p.*` with plain-text `p` selects exactly the keys that start
      with `p`: the same keys as `p` alone. */
  lemma PrefixStarMatchesPrefixes(p: string, s: string)
    requires PlainText(p)
    ensures Compile(p + ".*").Ok?
    ensures Matches(Compile(p + ".*").value, s) <==> p <= s
  {
    CompilePrefixStar(p);
    TrailingStarChangesNothing(Literals(p), AnyChar, s);
    LiteralsMatchPrefixes(p, s);
  }

  /** The pattern `a:.*` selects `a:1` and `a:2` but not `b:1`. */
  lemma StarPatternExample()
    ensures Compile("a:.*") == Ok([One(Literal('a')), One(Literal(':')), Many(AnyChar)])
    ensures var rx := Compile("a:.*").value;
            Matches(rx, "a:1") && Matches(rx, "a:2") && !Matches(rx, "b:1")
  {
    assert !Special('a') && !Special(':');
    assert "a:" + ".*" == "a:.*";
    CompilePrefixStar("a:");
    assert Literals("a:") == [One(Literal('a')), One(Literal(':'))];
    assert Literals("a:") + [Many(AnyChar)] == [One(Literal('a')), One(Literal(':')), Many(AnyChar)];
    PrefixStarMatchesPrefixes("a:", "a:1");
    PrefixStarMatchesPrefixes("a:", "a:2");
    PrefixStarMatchesPrefixes("a:", "b:1");
  }
}
