/** Parsing the comma-separated list of stock codes typed into the sidebar:
    split the text on commas, strip surrounding whitespace from each piece,
    and drop the pieces that are left empty. */
module Symbols {

  /** The characters Python's `str.isspace` accepts, which are the ones
      `str.strip()` removes: tab to carriage return (U+0009 to U+000D), the
      separators U+001C to U+001F, the space, and the Unicode space and line separators (including the
      ideographic space U+3000). */
  predicate IsSpace(c: char)
  {
    if c <= ' ' then '\t' <= c <= '\r' || '\U{1C}' <= c
    else
      || c == '\U{85}' || c == '\U{A0}' || c == '\U{1680}'
      || ('\U{2000}' <= c <= '\U{200A}') || c == '\U{2028}' || c == '\U{2029}'
      || c == '\U{202F}' || c == '\U{205F}' || c == '\U{3000}'
  }

  /** The 29 whitespace characters of Python's `str.isspace`, listed one
      by one. */
  const PythonWhitespace: string :=
    "\t\n\U{0B}\U{0C}\r\U{1C}\U{1D}\U{1E}\U{1F} \U{85}\U{A0}\U{1680}"
    + "\U{2000}\U{2001}\U{2002}\U{2003}\U{2004}\U{2005}\U{2006}\U{2007}\U{2008}\U{2009}\U{200A}"
    + "\U{2028}\U{2029}\U{202F}\U{205F}\U{3000}"

  /** The range test accepts exactly the listed whitespace characters. */
  lemma IsSpaceExactly(c: char)
    ensures IsSpace(c) <==> c in PythonWhitespace
  {
  }

  /** `s.split(",")`: the maximal comma-free pieces between commas, always at
      least one (the empty text gives one empty piece). */
  function Split(s: string): (pieces: seq<string>)
    ensures |pieces| >= 1
    ensures forall i :: 0 <= i < |pieces| ==> ',' !in pieces[i]
  {
    if s == [] then [""]
    else if s[0] == ',' then [""] + Split(s[1..])
    else
      var rest := Split(s[1..]);
      [[s[0]] + rest[0]] + rest[1..]
  }

  /** `",".join(pieces)`. */
  function Join(pieces: seq<string>): string
    requires |pieces| >= 1
  {
    if |pieces| == 1 then pieces[0] else pieces[0] + "," + Join(pieces[1..])
  }

  /** Joining the pieces with commas gives back the text. */
  lemma {:induction false} JoinSplit(s: string)
    ensures Join(Split(s)) == s
  {
    if s != [] {
      JoinSplit(s[1..]);
      var rest := Split(s[1..]);
      if s[0] == ',' {
        assert s == [s[0]] + s[1..];
      } else if |rest| == 1 {
        assert s == [s[0]] + rest[0];
      } else {
        var pieces := Split(s);
        assert pieces[1..] == rest[1..];
        assert Join(pieces) == [s[0]] + rest[0] + "," + Join(rest[1..]);
        assert s == [s[0]] + s[1..];
      }
    }
  }

  /** Splitting comma-free pieces joined with commas gives back the pieces. */
  lemma {:induction false} SplitJoin(pieces: seq<string>)
    requires |pieces| >= 1
    requires forall i :: 0 <= i < |pieces| ==> ',' !in pieces[i]
    ensures Split(Join(pieces)) == pieces
  {
    if |pieces| == 1 {
      SplitComma(pieces[0]);
    } else {
      SplitJoin(pieces[1..]);
      SplitPrefix(pieces[0], Join(pieces[1..]));
      assert pieces == [pieces[0]] + pieces[1..];
    }
  }

  /** A comma-free text is a single piece. */
  lemma {:induction false} SplitComma(p: string)
    requires ',' !in p
    ensures Split(p) == [p]
  {
    if p != [] {
      SplitComma(p[1..]);
      assert p == [p[0]] + p[1..];
    }
  }

  /** A comma-free prefix followed by a comma becomes the first piece. */
  lemma {:induction false} SplitPrefix(p: string, tail: string)
    requires ',' !in p
    ensures Split(p + "," + tail) == [p] + Split(tail)
  {
    if p == [] {
      assert p + "," + tail == [','] + tail;
      assert (p + "," + tail)[1..] == tail;
    } else {
      SplitPrefix(p[1..], tail);
      assert (p + "," + tail)[1..] == p[1..] + "," + tail;
      assert p == [p[0]] + p[1..];
    }
  }

  /** `s.lstrip()`: drops the leading whitespace. */
  function TrimStart(s: string): (r: string)
    ensures |r| <= |s| && r == s[|s| - |r|..]
    ensures forall i :: 0 <= i < |s| - |r| ==> IsSpace(s[i])
    ensures r == [] || !IsSpace(r[0])
  {
    if s != [] && IsSpace(s[0]) then TrimStart(s[1..]) else s
  }

  /** `s.rstrip()`: drops the trailing whitespace. */
  function TrimEnd(s: string): (r: string)
    ensures |r| <= |s| && r == s[..|r|]
    ensures forall i :: |r| <= i < |s| ==> IsSpace(s[i])
    ensures r == [] || !IsSpace(r[|r| - 1])
  {
    if s != [] && IsSpace(s[|s| - 1]) then TrimEnd(s[..|s| - 1]) else s
  }

  /** `s.strip()`: the text between the leading and the trailing whitespace. */
  function Strip(s: string): (r: string)
    ensures r == [] || (!IsSpace(r[0]) && !IsSpace(r[|r| - 1]))
    ensures ',' !in s ==> ',' !in r
  {
    TrimEnd(TrimStart(s))
  }

  /** Stripping removes exactly a whitespace prefix and a whitespace suffix. */
  lemma StripIsInfix(s: string)
    ensures var r, lead := Strip(s), |s| - |TrimStart(s)|;
      && lead + |r| <= |s|
      && r == s[lead..lead + |r|]
      && (forall i :: 0 <= i < lead ==> IsSpace(s[i]))
      && (forall i :: lead + |r| <= i < |s| ==> IsSpace(s[i]))
  {
    var t := TrimStart(s);
    var r := TrimEnd(t);
    var lead := |s| - |t|;
    assert t == s[lead..];
    forall i | lead + |r| <= i < |s| ensures IsSpace(s[i]) {
      assert s[i] == t[i - lead];
    }
  }

  /** A parsed symbol: non-empty, with no whitespace at either end and no
      comma. */
  predicate IsSymbol(x: string)
  {
    x != [] && !IsSpace(x[0]) && !IsSpace(x[|x| - 1]) && ',' !in x
  }

  /** The non-empty stripped pieces, in order. */
  function NonEmptyStripped(pieces: seq<string>): (syms: seq<string>)
    ensures |syms| <= |pieces|
  {
    if pieces == [] then []
    else
      var t := Strip(pieces[0]);
      (if t != [] then [t] else []) + NonEmptyStripped(pieces[1..])
  }

  /** From comma-free pieces, every kept piece is a symbol. */
  lemma {:induction false} NonEmptyStrippedSymbols(pieces: seq<string>)
    requires forall i :: 0 <= i < |pieces| ==> ',' !in pieces[i]
    ensures forall i :: 0 <= i < |NonEmptyStripped(pieces)| ==> IsSymbol(NonEmptyStripped(pieces)[i])
  {
    if pieces != [] {
      var t := Strip(pieces[0]);
      var head := if t != [] then [t] else [];
      var rest := NonEmptyStripped(pieces[1..]);
      NonEmptyStrippedSymbols(pieces[1..]);
      assert forall i :: 0 <= i < |head| ==> IsSymbol(head[i]);
      assert NonEmptyStripped(pieces) == head + rest;
    }
  }

  /** The symbol list of a sidebar text: split on commas, strip each piece
      and keep the non-empty ones. Every symbol is non-empty, has no
      surrounding whitespace and contains no comma. */
  function ParseSymbols(text: string): (syms: seq<string>)
    ensures |syms| <= |Split(text)|
    ensures forall i :: 0 <= i < |syms| ==> IsSymbol(syms[i])
  {
    NonEmptyStrippedSymbols(Split(text));
    NonEmptyStripped(Split(text))
  }

  /** Splitting at a comma: the pieces of the left text, then those of the
      right text. */
  lemma {:induction false} SplitAtComma(a: string, b: string)
    ensures Split(a + "," + b) == Split(a) + Split(b)
  {
    var s := a + "," + b;
    if a == [] {
      assert s[0] == ',' && s[1..] == b;
      assert Split(s) == [""] + Split(b);
    } else {
      var a', s' := a[1..], a[1..] + "," + b;
      assert s[0] == a[0] && s[1..] == s';
      SplitAtComma(a', b);
      var rest := Split(a');
      assert Split(s') == rest + Split(b);
      if a[0] == ',' {
        assert Split(s) == [""] + Split(s');
        assert Split(a) == [""] + rest;
      } else {
        assert Split(s') [0] == rest[0];
        assert Split(s')[1..] == rest[1..] + Split(b);
        assert Split(s) == [[a[0]] + rest[0]] + (rest[1..] + Split(b));
        assert Split(a) == [[a[0]] + rest[0]] + rest[1..];
      }
    }
  }

  /** Unfolding the filter once. */
  lemma NonEmptyStrippedCons(p: string, rest: seq<string>)
    ensures NonEmptyStripped([p] + rest)
         == (if Strip(p) != [] then [Strip(p)] else []) + NonEmptyStripped(rest)
  {
    assert ([p] + rest)[0] == p && ([p] + rest)[1..] == rest;
  }

  /** Filtering distributes over concatenation of the piece lists. */
  lemma {:induction false} NonEmptyStrippedAppend(ps: seq<string>, qs: seq<string>)
    ensures NonEmptyStripped(ps + qs) == NonEmptyStripped(ps) + NonEmptyStripped(qs)
  {
    if ps == [] {
      assert ps + qs == qs;
    } else {
      var p, ps' := ps[0], ps[1..];
      assert ps == [p] + ps';
      assert ps + qs == [p] + (ps' + qs);
      var head := if Strip(p) != [] then [Strip(p)] else [];
      var a, b := NonEmptyStripped(ps'), NonEmptyStripped(qs);
      calc {
        NonEmptyStripped(ps + qs);
        { NonEmptyStrippedCons(p, ps' + qs); }
        head + NonEmptyStripped(ps' + qs);
        { NonEmptyStrippedAppend(ps', qs); }
        head + (a + b);
        { assert head + (a + b) == (head + a) + b; }
        (head + a) + b;
        { NonEmptyStrippedCons(p, ps'); }
        NonEmptyStripped(ps) + b;
      }
    }
  }

  /** Parsing `a,b` gives the symbols of `a` followed by those of `b`: order
      is kept and repeated codes are not merged. */
  lemma ParseAtComma(a: string, b: string)
    ensures ParseSymbols(a + "," + b) == ParseSymbols(a) + ParseSymbols(b)
  {
    SplitAtComma(a, b);
    NonEmptyStrippedAppend(Split(a), Split(b));
  }

  /** A comma-free code without surrounding whitespace, with or without one
      space in front, parses to itself. */
  lemma ParseCode(code: string)
    requires code != [] && ',' !in code
    requires !IsSpace(code[0]) && !IsSpace(code[|code| - 1])
    ensures ParseSymbols(code) == [code]
    ensures ParseSymbols([' '] + code) == [code]
  {
    var padded := [' '] + code;
    assert padded[1..] == code;
    assert Split(code) == [code] by { SplitComma(code); }
    assert Split(padded) == [padded] by { assert ',' !in padded; SplitComma(padded); }
    assert Strip(code) == code by {
      assert TrimStart(code) == code;
      assert TrimEnd(code) == code;
    }
    assert Strip(padded) == code by {
      assert TrimStart(padded) == TrimStart(code) == code;
      assert TrimEnd(code) == code;
    }
    assert ParseSymbols(code) == [code] by {
      assert NonEmptyStripped([code]) == [Strip(code)] + NonEmptyStripped([code][1..]);
    }
    assert ParseSymbols(padded) == [code] by {
      assert NonEmptyStripped([padded]) == [Strip(padded)] + NonEmptyStripped([padded][1..]);
    }
  }
}
