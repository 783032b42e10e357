/**
 * Signature format strings such as `{id}#{apikey}#{secret}`: the tokens the
 * gateway's pattern `/(?:\{([^\{\}#]+)\}#?)/` captures, and what repeated
 * `str_replace('{name}', value, ...)` does to a format.
 *
 * A format is described by segments: literal text and `{name}` holes.
 * Proved here: the tokens of such a format are its hole names in order,
 * and replacing the placeholders one name at a time fills exactly the
 * holes of that name, provided no substituted value contains a `{`.
 */
module SignatureFormat {
  import opened Php

  /** A character the token pattern admits inside braces. */
  predicate IsNameChar(c: char) {
    c != '{' && c != '}' && c != '#'
  }

  predicate IsTokenName(n: string) {
    |n| > 0 && forall i :: 0 <= i < |n| ==> IsNameChar(n[i])
  }

  function Placeholder(n: string): (p: string)
    ensures |p| == |n| + 2 && p[0] == '{'
  {
    "{" + n + "}"
  }

  /** The length of the longest prefix made of name characters. */
  function NameLength(t: string): (k: nat)
    ensures k <= |t|
    ensures forall i :: 0 <= i < k ==> IsNameChar(t[i])
    ensures k < |t| ==> !IsNameChar(t[k])
  {
    if t != [] && IsNameChar(t[0]) then 1 + NameLength(t[1..]) else 0
  }

  /**
   * The names captured by `preg_match_all('/(?:\{([^\{\}#]+)\}#?)/', s)`, left
   * to right, repeats included. A `{` that does not open a token is skipped;
   * the optional `#` after a token cannot start another one, so it is passed
   * over like any other character.
   */
  function Tokens(s: string): (r: seq<string>)
    ensures forall i :: 0 <= i < |r| ==> IsTokenName(r[i])
    decreases |s|
  {
    if s == [] then []
    else if s[0] == '{' then
      var k := NameLength(s[1..]);
      if 0 < k && k + 1 < |s| && s[k + 1] == '}' then [s[1..k + 1]] + Tokens(s[k + 2..])
      else Tokens(s[1..])
    else Tokens(s[1..])
  }

  datatype Segment = Text(text: string) | Hole(name: string)

  function Flatten(segs: seq<Segment>): string {
    if segs == [] then ""
    else
      (match segs[0] case Text(t) => t case Hole(n) => Placeholder(n)) + Flatten(segs[1..])
  }

  /** Literal text holds no `{` and every hole is a token name. */
  predicate WellFormed(segs: seq<Segment>) {
    forall i :: 0 <= i < |segs| ==>
      (segs[i].Text? ==> '{' !in segs[i].text) && (segs[i].Hole? ==> IsTokenName(segs[i].name))
  }

  function HoleNames(segs: seq<Segment>): seq<string> {
    if segs == [] then []
    else (if segs[0].Hole? then [segs[0].name] else []) + HoleNames(segs[1..])
  }

  /** Replaces every hole named `n` by the literal `v`. */
  function Fill(segs: seq<Segment>, n: string, v: string): (r: seq<Segment>)
    ensures |r| == |segs|
  {
    seq(|segs|, i requires 0 <= i < |segs| => if segs[i] == Hole(n) then Text(v) else segs[i])
  }

  // ---------------------------------------------------------------------
  // Tokens of a segmented format

  lemma {:induction false} TokensSkipText(t: string, rest: string)
    requires '{' !in t
    ensures Tokens(t + rest) == Tokens(rest)
    decreases |t|
  {
    if t != [] {
      assert (t + rest)[0] == t[0];
      assert (t + rest)[1..] == t[1..] + rest;
      assert forall c :: c in t[1..] ==> c in t;
      TokensSkipText(t[1..], rest);
    } else {
      assert t + rest == rest;
    }
  }

  lemma {:induction false} NameLengthOfName(n: string, rest: string)
    requires forall i :: 0 <= i < |n| ==> IsNameChar(n[i])
    ensures NameLength(n + "}" + rest) == |n|
    decreases |n|
  {
    var s := n + "}" + rest;
    if n != [] {
      assert s[0] == n[0];
      assert s[1..] == n[1..] + "}" + rest;
      NameLengthOfName(n[1..], rest);
    } else {
      assert s[0] == '}';
    }
  }

  lemma TokensOfHole(n: string, rest: string)
    requires IsTokenName(n)
    ensures Tokens(Placeholder(n) + rest) == [n] + Tokens(rest)
  {
    var s := Placeholder(n) + rest;
    assert s[1..] == n + "}" + rest;
    NameLengthOfName(n, rest);
    assert s[|n| + 1] == '}';
    assert s[1..|n| + 1] == n;
    assert s[|n| + 2..] == rest;
  }

  lemma {:induction false} TokensOfFlatten(segs: seq<Segment>)
    requires WellFormed(segs)
    ensures Tokens(Flatten(segs)) == HoleNames(segs)
    decreases |segs|
  {
    if segs != [] {
      assert WellFormed(segs[1..]) by {
        forall i | 0 <= i < |segs[1..]|
          ensures (segs[1..][i].Text? ==> '{' !in segs[1..][i].text)
                  && (segs[1..][i].Hole? ==> IsTokenName(segs[1..][i].name))
        {
          assert segs[1..][i] == segs[i + 1];
        }
      }
      TokensOfFlatten(segs[1..]);
      match segs[0]
      case Text(t) =>
        assert '{' !in t;
        TokensSkipText(t, Flatten(segs[1..]));
      case Hole(n) =>
        TokensOfHole(n, Flatten(segs[1..]));
    }
  }

  // ---------------------------------------------------------------------
  // Replacing one placeholder in a segmented format

  /** A placeholder for another name does not match at the start of this one. */
  lemma OtherPlaceholderDiffers(m: string, n: string, rest: string)
    requires IsTokenName(m) && IsTokenName(n) && m != n
    requires |Placeholder(m) + rest| >= |Placeholder(n)|
    ensures (Placeholder(m) + rest)[..|Placeholder(n)|] != Placeholder(n)
  {
    var s := Placeholder(m) + rest;
    var p := Placeholder(n);
    if |m| == |n| {
      assert s[..|p|] == Placeholder(m);
      assert Placeholder(m)[1..|m| + 1] == m && p[1..|n| + 1] == n;
    } else if |m| < |n| {
      assert s[|m| + 1] == '}';
      assert p[|m| + 1] == n[|m|] && IsNameChar(n[|m|]);
      assert s[..|p|][|m| + 1] != p[|m| + 1];
    } else {
      assert p[|n| + 1] == '}';
      assert s[|n| + 1] == m[|n|] && IsNameChar(m[|n|]);
      assert s[..|p|][|n| + 1] != p[|n| + 1];
    }
  }

  lemma ReplaceSkipsOtherHole(m: string, n: string, rest: string, v: string)
    requires IsTokenName(m) && IsTokenName(n) && m != n
    ensures ReplaceAll(Placeholder(m) + rest, Placeholder(n), v)
         == Placeholder(m) + ReplaceAll(rest, Placeholder(n), v)
  {
    var s := Placeholder(m) + rest;
    var p := Placeholder(n);
    var tail := m + "}";
    assert Placeholder(m) == ['{'] + tail;
    assert s[0] == '{' && s[1..] == tail + rest;
    assert '{' !in tail by {
      forall i | 0 <= i < |tail| ensures tail[i] != '{' {
        if i < |m| { assert tail[i] == m[i]; }
      }
    }
    if |s| >= |p| {
      OtherPlaceholderDiffers(m, n, rest);
    }
    ReplaceFirstKept(s, p, v);
    ReplaceAllSkip(tail, rest, p, v);
  }

  /** A text that does not start with the pattern keeps its first character. */
  lemma ReplaceFirstKept(s: string, p: string, v: string)
    requires |s| > 0 && |p| > 0
    requires |s| >= |p| ==> s[..|p|] != p
    ensures ReplaceAll(s, p, v) == [s[0]] + ReplaceAll(s[1..], p, v)
  {
    if |s| < |p| {
      assert ReplaceAll(s[1..], p, v) == s[1..];
      assert s == [s[0]] + s[1..];
    }
  }

  lemma ReplaceHole(n: string, rest: string, v: string)
    requires IsTokenName(n)
    ensures ReplaceAll(Placeholder(n) + rest, Placeholder(n), v) == v + ReplaceAll(rest, Placeholder(n), v)
  {
    var s := Placeholder(n) + rest;
    assert s[..|Placeholder(n)|] == Placeholder(n);
    assert s[|Placeholder(n)|..] == rest;
  }

  lemma WellFormedTail(segs: seq<Segment>)
    requires segs != [] && WellFormed(segs)
    ensures WellFormed(segs[1..])
  {
    forall i | 0 <= i < |segs[1..]|
      ensures (segs[1..][i].Text? ==> '{' !in segs[1..][i].text)
              && (segs[1..][i].Hole? ==> IsTokenName(segs[1..][i].name))
    {
      assert segs[1..][i] == segs[i + 1];
    }
  }

  /**
   * `str_replace('{n}', v, ...)` over a well-formed format fills exactly the
   * holes named `n`, when `v` holds no `{`.
   */
  lemma {:induction false} ReplaceFills(segs: seq<Segment>, n: string, v: string)
    requires WellFormed(segs) && IsTokenName(n) && '{' !in v
    ensures ReplaceAll(Flatten(segs), Placeholder(n), v) == Flatten(Fill(segs, n, v))
    ensures WellFormed(Fill(segs, n, v))
    decreases |segs|
  {
    if segs == [] {
      assert Fill(segs, n, v) == [];
    } else {
      WellFormedTail(segs);
      ReplaceFills(segs[1..], n, v);
      var f := Fill(segs, n, v);
      assert f[1..] == Fill(segs[1..], n, v);
      var rest := Flatten(segs[1..]);
      match segs[0]
      case Text(t) =>
        assert '{' !in t;
        ReplaceAllSkip(t, rest, Placeholder(n), v);
        assert f[0] == Text(t);
      case Hole(m) =>
        if m == n {
          ReplaceHole(n, rest, v);
          assert f[0] == Text(v);
        } else {
          ReplaceSkipsOtherHole(m, n, rest, v);
          assert f[0] == Hole(m);
        }
    }
  }

  // ---------------------------------------------------------------------
  // Replacing a sequence of placeholders

  /** `str_replace` applied once per (name, value) pair, in order. */
  function SubstituteAll(s: string, pairs: seq<(string, string)>): string
    requires forall j :: 0 <= j < |pairs| ==> |pairs[j].0| > 0
    decreases |pairs|
  {
    if pairs == [] then s
    else
      var last := pairs[|pairs| - 1];
      ReplaceAll(SubstituteAll(s, pairs[..|pairs| - 1]), Placeholder(last.0), last.1)
  }

  function KeysOf(pairs: seq<(string, string)>): set<string> {
    set j | 0 <= j < |pairs| :: pairs[j].0
  }

  /** The format with every hole whose name is in `names` filled from `values`. */
  function FillFrom(segs: seq<Segment>, names: set<string>, values: map<string, string>): (r: seq<Segment>)
    ensures |r| == |segs|
  {
    seq(|segs|, i requires 0 <= i < |segs| =>
      if segs[i].Hole? && segs[i].name in names && segs[i].name in values
      then Text(values[segs[i].name]) else segs[i])
  }

  /** Each pair names a token and carries that token's value, which holds no `{`. */
  predicate Consistent(pairs: seq<(string, string)>, values: map<string, string>) {
    forall j :: 0 <= j < |pairs| ==>
      IsTokenName(pairs[j].0) && pairs[j].0 in values && values[pairs[j].0] == pairs[j].1 && '{' !in pairs[j].1
  }

  lemma {:induction false} SubstituteFills(segs: seq<Segment>, pairs: seq<(string, string)>, values: map<string, string>)
    requires WellFormed(segs) && Consistent(pairs, values)
    ensures SubstituteAll(Flatten(segs), pairs) == Flatten(FillFrom(segs, KeysOf(pairs), values))
    ensures WellFormed(FillFrom(segs, KeysOf(pairs), values))
    decreases |pairs|
  {
    if pairs == [] {
      assert FillFrom(segs, KeysOf(pairs), values) == segs;
    } else {
      var init := pairs[..|pairs| - 1];
      var last := pairs[|pairs| - 1];
      assert Consistent(init, values) by {
        forall j | 0 <= j < |init| ensures init[j] == pairs[j] { }
      }
      SubstituteFills(segs, init, values);
      var before := FillFrom(segs, KeysOf(init), values);
      ReplaceFills(before, last.0, last.1);
      assert KeysOf(pairs) == KeysOf(init) + {last.0} by {
        forall k | k in KeysOf(pairs) ensures k in KeysOf(init) + {last.0} {
          var j :| 0 <= j < |pairs| && pairs[j].0 == k;
          if j < |init| { assert init[j] == pairs[j]; }
        }
        forall k | k in KeysOf(init) ensures k in KeysOf(pairs) {
          var j :| 0 <= j < |init| && init[j].0 == k;
          assert pairs[j] == init[j];
        }
      }
      assert Fill(before, last.0, last.1) == FillFrom(segs, KeysOf(pairs), values);
    }
  }

  // ---------------------------------------------------------------------
  // Formats of the shape `{a}#{b}#...#{z}`

  /** The segments of the format that joins the placeholders of `names` with `#`. */
  function Joined(names: seq<string>): seq<Segment>
    decreases |names|
  {
    if names == [] then []
    else if |names| == 1 then [Hole(names[0])]
    else [Hole(names[0]), Text("#")] + Joined(names[1..])
  }

  function Placeholders(names: seq<string>): (r: seq<string>)
    ensures |r| == |names|
  {
    seq(|names|, i requires 0 <= i < |names| => Placeholder(names[i]))
  }

  lemma {:induction false} FlattenConcat(a: seq<Segment>, b: seq<Segment>)
    ensures Flatten(a + b) == Flatten(a) + Flatten(b)
    decreases |a|
  {
    if a == [] {
      assert a + b == b;
    } else {
      assert (a + b)[0] == a[0];
      assert (a + b)[1..] == a[1..] + b;
      FlattenConcat(a[1..], b);
    }
  }

  lemma {:induction false} JoinedShape(names: seq<string>)
    requires forall i :: 0 <= i < |names| ==> IsTokenName(names[i])
    ensures WellFormed(Joined(names))
    ensures HoleNames(Joined(names)) == names
    ensures Flatten(Joined(names)) == Implode("#", Placeholders(names))
    decreases |names|
  {
    if |names| == 1 {
      assert Placeholders(names) == [Placeholder(names[0])];
    } else if |names| > 1 {
      var rest := Joined(names[1..]);
      JoinedShape(names[1..]);
      var j := Joined(names);
      assert j == [Hole(names[0]), Text("#")] + rest;
      forall i | 0 <= i < |j|
        ensures (j[i].Text? ==> '{' !in j[i].text) && (j[i].Hole? ==> IsTokenName(j[i].name))
      {
        if i >= 2 { assert j[i] == rest[i - 2]; }
      }
      assert j[1..] == [Text("#")] + rest;
      assert j[1..][1..] == rest;
      FlattenConcat([Hole(names[0]), Text("#")], rest);
      assert Flatten([Hole(names[0]), Text("#")]) == Placeholder(names[0]) + "#" by {
        assert [Hole(names[0]), Text("#")][1..] == [Text("#")];
        assert [Text("#")][1..] == [];
      }
      assert Placeholders(names)[1..] == Placeholders(names[1..]);
    }
  }

  lemma FillFromConcat(a: seq<Segment>, b: seq<Segment>, filled: set<string>, values: map<string, string>)
    ensures FillFrom(a + b, filled, values) == FillFrom(a, filled, values) + FillFrom(b, filled, values)
  {
    var l, r := FillFrom(a + b, filled, values), FillFrom(a, filled, values) + FillFrom(b, filled, values);
    forall i | 0 <= i < |l| ensures l[i] == r[i] {
      if i >= |a| { assert (a + b)[i] == b[i - |a|]; }
    }
  }

  function JoinedValues(names: seq<string>, values: map<string, string>): (r: seq<string>)
    requires forall i :: 0 <= i < |names| ==> names[i] in values
    ensures |r| == |names|
  {
    seq(|names|, i requires 0 <= i < |names| => values[names[i]])
  }

  /**
   * Filling every hole of a `#`-joined format gives the `#`-join of the
   * values, in the order of the names.
   */
  lemma {:induction false} JoinedFilled(names: seq<string>, filled: set<string>, values: map<string, string>)
    requires forall i :: 0 <= i < |names| ==> names[i] in filled && names[i] in values
    ensures Flatten(FillFrom(Joined(names), filled, values)) == Implode("#", JoinedValues(names, values))
    decreases |names|
  {
    var vs := JoinedValues(names, values);
    if |names| == 1 {
      assert FillFrom(Joined(names), filled, values) == [Text(values[names[0]])];
    } else if |names| > 1 {
      JoinedFilled(names[1..], filled, values);
      var rest := Joined(names[1..]);
      var head: seq<Segment> := [Hole(names[0]), Text("#")];
      FillFromConcat(head, rest, filled, values);
      var fh: seq<Segment> := [Text(values[names[0]]), Text("#")];
      assert FillFrom(head, filled, values) == fh;
      FlattenConcat(fh, FillFrom(rest, filled, values));
      assert Flatten(fh) == values[names[0]] + "#" by {
        assert fh[1..] == [Text("#")];
        assert [Text("#")][1..] == [];
      }
      assert vs[1..] == JoinedValues(names[1..], values);
    }
  }

  /**
   * `str_replace` rescans what an earlier replacement inserted: a value
   * holding a placeholder is itself filled by a later token.
   */
  lemma SubstituteRescans()
    ensures SubstituteAll("{a}#{b}", [("a", "{b}"), ("b", "X")]) == "X#X"
  {
    var pairs := [("a", "{b}"), ("b", "X")];
    assert pairs[..1] == [("a", "{b}")] && pairs[..1][..0] == [];
    assert ReplaceAll("{a}#{b}", "{a}", "{b}") == "{b}#{b}";
    assert ReplaceAll("{b}#{b}", "{b}", "X") == "X#X";
  }
}
