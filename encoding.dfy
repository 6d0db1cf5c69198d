/** The text escaping the chart generator applies to the chart title and to
    every sample name before they go into the URL. */
module ChartEncoding {

  import opened Strings
  import opened Replacer

  /** The replacement rules, in the order they are applied: plus signs are
      escaped before spaces are turned into plus signs. */
  const Replacers: seq<Replacer> := [Replacer('+', "%2b"), Replacer(' ', "+"), Replacer('&', "%26")]

  /** `s` after each rule of `rules` has been applied to it in turn. */
  function Chain(rules: seq<Replacer>, s: string): string
  {
    if rules == [] then s else Chain(rules[1..], rules[0].Process(s))
  }

  /** What the encoder makes of one input character. */
  function EscapeChar(c: char): string
  {
    if c == '+' then "%2b"
    else if c == ' ' then "+"
    else if c == '&' then "%26"
    else [c]
  }

  /** Reference definition of the encoding: every character escaped on its own. */
  function Escaped(s: string): string
  {
    if s == [] then "" else EscapeChar(s[0]) + Escaped(s[1..])
  }

  /** `encode`: applies the replacement rules one after another. */
  method Encode(s: string) returns (r: string)
    ensures r == Escaped(s)
  {
    r := s;
    for i := 0 to |Replacers|
      invariant Chain(Replacers[i..], r) == Chain(Replacers, s)
    {
      assert Replacers[i..][1..] == Replacers[i + 1..];
      r := Replacers[i].Process(r);
    }
    ChainIsEscaped(s);
  }

  /** The three rules applied to a single character give its escape. */
  lemma ChainOfChar(c: char)
    ensures Replacers[2].Process(Replacers[1].Process(Replacers[0].Process([c]))) == EscapeChar(c)
  {
    assert [c][1..] == [];
    if c == '+' {
      assert Replacers[0].Process([c]) == "%2b";
      assert "%2b"[1..] == "2b" && "2b"[1..] == "b" && "b"[1..] == "";
      assert Replacers[1].Process("%2b") == "%2b";
      assert Replacers[2].Process("%2b") == "%2b";
    } else if c == ' ' {
      assert Replacers[1].Process([c]) == "+";
      assert "+"[1..] == "";
      assert Replacers[2].Process("+") == "+";
    } else if c == '&' {
      assert Replacers[1].Process([c]) == "&";
      assert Replacers[2].Process("&") == "%26";
    }
  }

  lemma ChainUnfolded(s: string)
    ensures Chain(Replacers, s) == Replacers[2].Process(Replacers[1].Process(Replacers[0].Process(s)))
  {
    var r0, r1, r2 := Replacers[0], Replacers[1], Replacers[2];
    var t0 := r0.Process(s);
    var t1 := r1.Process(t0);
    assert Replacers[1..] == [r1, r2] && [r1, r2][1..] == [r2] && [r2][1..] == [];
    assert Chain(Replacers, s) == Chain([r1, r2], t0);
    assert Chain([r1, r2], t0) == Chain([r2], t1);
    assert Chain([r2], t1) == Chain([], r2.Process(t1));
  }

  /** Applying the rules in sequence escapes every character independently. */
  lemma {:induction false} ChainIsEscaped(s: string)
    ensures Chain(Replacers, s) == Escaped(s)
  {
    var r0, r1, r2 := Replacers[0], Replacers[1], Replacers[2];
    ChainUnfolded(s);
    if s != [] {
      var c, rest := s[0], s[1..];
      assert s == [c] + rest;
      ChainIsEscaped(rest);
      ChainUnfolded(rest);
      r0.ProcessAppend([c], rest);
      r1.ProcessAppend(r0.Process([c]), r0.Process(rest));
      r2.ProcessAppend(r1.Process(r0.Process([c])), r1.Process(r0.Process(rest)));
      ChainOfChar(c);
    }
  }

  lemma {:induction false} EscapedAppend(a: string, b: string)
    ensures Escaped(a + b) == Escaped(a) + Escaped(b)
  {
    if a == [] {
      assert a + b == b;
    } else {
      assert (a + b)[0] == a[0] && (a + b)[1..] == a[1..] + b;
      EscapedAppend(a[1..], b);
    }
  }

  /** The encoded text holds no space and no ampersand. */
  lemma {:induction false} EscapedHasNoSpaceOrAmpersand(s: string)
    ensures ' ' !in Escaped(s) && '&' !in Escaped(s)
  {
    if s != [] {
      EscapedHasNoSpaceOrAmpersand(s[1..]);
    }
  }

  /** Every plus sign of the output stands for a space of the input. */
  lemma {:induction false} PlusCountsSpaces(s: string)
    ensures Count(Escaped(s), '+') == Count(s, ' ')
  {
    if s != [] {
      PlusCountsSpaces(s[1..]);
      CountAppend(EscapeChar(s[0]), Escaped(s[1..]), '+');
      assert EscapeChar(s[0]) == "%2b" ==> Count(EscapeChar(s[0]), '+') == 0 by {
        assert "%2b"[1..] == "2b" && "2b"[1..] == "b" && "b"[1..] == "";
      }
      assert EscapeChar(s[0]) == "%26" ==> Count(EscapeChar(s[0]), '+') == 0 by {
        assert "%26"[1..] == "26" && "26"[1..] == "6" && "6"[1..] == "";
      }
      assert [s[0]][1..] == [];
    }
  }

  /** Each plus sign and each ampersand grows the text by two characters. */
  lemma {:induction false} EscapedLength(s: string)
    ensures |Escaped(s)| == |s| + 2 * (Count(s, '+') + Count(s, '&'))
  {
    if s != [] {
      EscapedLength(s[1..]);
    }
  }

  /** The encoding leaves a string unchanged exactly when it holds no plus
      sign, no space and no ampersand. */
  lemma EscapedFixedPoints(s: string)
    ensures Escaped(s) == s <==> ('+' !in s && ' ' !in s && '&' !in s)
  {
    EscapedLength(s);
    EscapedHasNoSpaceOrAmpersand(s);
    if '+' !in s && ' ' !in s && '&' !in s {
      UnchangedWithoutSpecials(s);
    }
  }

  lemma {:induction false} UnchangedWithoutSpecials(s: string)
    requires '+' !in s && ' ' !in s && '&' !in s
    ensures Escaped(s) == s
  {
    if s != [] {
      UnchangedWithoutSpecials(s[1..]);
      assert [s[0]] + s[1..] == s;
    }
  }

  /** The three escapes `encode` produces, undone: `+` is a space, `%2b` a
      plus sign and `%26` an ampersand; everything else is kept as it is.
      This is not a full form decoder (it knows no other `%` escape and no
      upper-case `%2B`); it agrees with one on the encodings of text without
      `%`, the inputs `DecodeEscaped` and `TitleReadBack` are about. */
  function Decode(t: string): string
  {
    if t == [] then ""
    else if t[0] == '+' then " " + Decode(t[1..])
    else if |t| >= 3 && t[..3] == "%2b" then "+" + Decode(t[3..])
    else if |t| >= 3 && t[..3] == "%26" then "&" + Decode(t[3..])
    else [t[0]] + Decode(t[1..])
  }

  lemma DecodeEscapeChar(c: char, rest: string)
    requires c != '%'
    ensures Decode(EscapeChar(c) + rest) == [c] + Decode(rest)
  {
    var t := EscapeChar(c) + rest;
    if c == '+' {
      assert t[..3] == "%2b" && t[3..] == rest;
    } else if c == '&' {
      assert t[..3] == "%26" && t[3..] == rest;
    } else if c == ' ' {
      assert t[0] == '+' && t[1..] == rest;
    } else {
      assert EscapeChar(c) == [c];
      assert t[0] == c && t[1..] == rest;
    }
  }

  /** Decoding recovers any input that holds no percent sign. */
  lemma {:induction false} DecodeEscaped(s: string)
    requires '%' !in s
    ensures Decode(Escaped(s)) == s
  {
    if s != [] {
      DecodeEscaped(s[1..]);
      DecodeEscapeChar(s[0], Escaped(s[1..]));
      assert [s[0]] + s[1..] == s;
    }
  }

  /** A percent sign is not escaped, so two inputs can share one encoding:
      the title `%2b` and the title `+` give the same URL text. */
  /** `|` is not escaped: the encoding holds a `|` exactly when its input does. */
  lemma {:induction false} EscapedKeepsBar(s: string)
    ensures '|' in Escaped(s) <==> '|' in s
  {
    if s != [] {
      EscapedKeepsBar(s[1..]);
      assert s == [s[0]] + s[1..];
      assert '|' in EscapeChar(s[0]) <==> s[0] == '|';
    }
  }

  lemma EscapedCollision()
    ensures Escaped("%2b") == Escaped("+") == "%2b"
  {
    assert "%2b"[1..] == "2b" && "2b"[1..] == "b" && "b"[1..] == "";
    assert "+"[1..] == "";
  }
}
