/** A model of Go's fmt.Sprintf restricted to what the Airtable client uses:
    a format string and a list of string operands.

    Modelled: the verbs %s and %v (both print a string operand as it is),
    the escape %%, a trailing lone '%' (%!(NOVERB)), a verb with no operand
    left (%!c(MISSING)), any other verb applied to a string (%!c(string=...)),
    and operands left over at the end (%!(EXTRA string=..., string=...)).
    Not modelled: flags, width, precision, explicit argument indexes, and the
    verbs that Go also accepts for strings (%q, %x, %X, %T); they render here
    as bad verbs do. */
module GoFmt {

  /** s contains no '%', so fmt copies it through as literal text. */
  predicate NoPercent(s: string) {
    forall i :: 0 <= i < |s| ==> s[i] != '%'
  }

  /** What rendering a format yields: the text, and the operands no verb consumed. */
  datatype Rendered = Rendered(text: string, rest: seq<string>)

  /** The text one verb character c prints, and how many operands (0 or 1) it
      consumes from args. */
  function Verb(c: char, args: seq<string>): (r: (string, nat))
    ensures r.1 <= 1 && r.1 <= |args|
  {
    if c == '%' then ("%", 0)
    else if args == [] then ("%!" + [c] + "(MISSING)", 0)
    else if c == 's' || c == 'v' then (args[0], 1)
    else ("%!" + [c] + "(string=" + args[0] + ")", 1)
  }

  /** Renders format f against operands args. Verbs consume operands strictly
      left to right, so what is left over is always a suffix of args. */
  function Render(f: string, args: seq<string>): (r: Rendered)
    ensures |r.rest| <= |args| && r.rest == args[|args| - |r.rest|..]
    decreases |f|
  {
    if f == [] then Rendered("", args)
    else if f[0] != '%' then
      var r := Render(f[1..], args);
      Rendered([f[0]] + r.text, r.rest)
    else if |f| == 1 then Rendered("%!(NOVERB)", args)
    else
      var (t, used) := Verb(f[1], args);
      var r := Render(f[2..], args[used..]);
      assert args[used..][|args| - used - |r.rest|..] == args[|args| - |r.rest|..];
      Rendered(t + r.text, r.rest)
  }

  /** The "string=a, string=b" list Go appends for operands no verb used. */
  function ExtraList(rest: seq<string>): string
    requires rest != []
    decreases |rest|
  {
    "string=" + rest[0] + (if |rest| == 1 then "" else ", " + ExtraList(rest[1..]))
  }

  /** fmt.Sprintf(f, args...) for string operands. */
  function Sprintf(f: string, args: seq<string>): string {
    var r := Render(f, args);
    r.text + (if r.rest == [] then "" else "%!(EXTRA " + ExtraList(r.rest) + ")")
  }

  lemma NoPercentConcat(a: string, b: string)
    requires NoPercent(a) && NoPercent(b)
    ensures NoPercent(a + b)
  {
  }

  lemma Associative(a: string, b: string, c: string)
    ensures a + (b + c) == a + b + c
  {
  }

  /** A '%'-free prefix of a format is copied through and consumes no operand. */
  lemma {:induction false} RenderLiteralPrefix(p: string, f: string, args: seq<string>)
    requires NoPercent(p)
    ensures Render(p + f, args) == Rendered(p + Render(f, args).text, Render(f, args).rest)
  {
    if p == [] {
      assert p + f == f;
      assert p + Render(f, args).text == Render(f, args).text;
    } else {
      assert (p + f)[0] == p[0];
      assert (p + f)[1..] == p[1..] + f;
      RenderLiteralPrefix(p[1..], f, args);
      assert [p[0]] + (p[1..] + Render(f, args).text) == p + Render(f, args).text;
    }
  }

  /** A %s or %v verb at the head of a format prints the first operand. */
  lemma RenderStringVerb(verb: char, q: string, args: seq<string>)
    requires verb == 's' || verb == 'v'
    requires args != []
    ensures Render(['%', verb] + q, args)
         == Rendered(args[0] + Render(q, args[1..]).text, Render(q, args[1..]).rest)
  {
  }

  /** Rendering of a one-verb format, with the concatenations nested to the right. */
  lemma RenderOne(p: string, verb: char, q: string, a: string)
    requires NoPercent(p) && NoPercent(q)
    requires verb == 's' || verb == 'v'
    ensures Render(p + (['%', verb] + q), [a]) == Rendered(p + (a + q), [])
  {
    var g := ['%', verb] + q;
    assert Render(q, []) == Rendered(q, []) by {
      RenderLiteralPrefix(q, "", []);
      assert q + "" == q;
    }
    assert Render(g, [a]) == Rendered(a + q, []) by {
      RenderStringVerb(verb, q, [a]);
      assert [a][1..] == [];
    }
    assert Render(p + g, [a]) == Rendered(p + (a + q), []) by {
      RenderLiteralPrefix(p, g, [a]);
    }
  }

  /** A format with exactly one %s or %v verb, and otherwise '%'-free, replaces
      that verb by its single operand; the operand itself may hold any text. */
  lemma SprintfOne(p: string, verb: char, q: string, a: string)
    requires NoPercent(p) && NoPercent(q)
    requires verb == 's' || verb == 'v'
    ensures Sprintf(p + ['%', verb] + q, [a]) == p + a + q
  {
    assert p + ['%', verb] + q == p + (['%', verb] + q) by {
      Associative(p, ['%', verb], q);
    }
    assert p + (a + q) == p + a + q by {
      Associative(p, a, q);
    }
    RenderOne(p, verb, q, a);
  }

  /** Rendering of a two-verb format, with the concatenations nested to the right. */
  lemma RenderTwo(p: string, q: string, s: string, a: string, b: string)
    requires NoPercent(p) && NoPercent(q) && NoPercent(s)
    ensures Render(p + ("%s" + (q + ("%s" + s))), [a, b]) == Rendered(p + (a + (q + (b + s))), [])
  {
    var g2 := "%s" + s;
    var g1 := "%s" + (q + g2);
    assert Render(s, []) == Rendered(s, []) by {
      RenderLiteralPrefix(s, "", []);
      assert s + "" == s;
    }
    assert Render(g2, [b]) == Rendered(b + s, []) by {
      RenderStringVerb('s', s, [b]);
      assert [b][1..] == [];
    }
    assert Render(q + g2, [b]) == Rendered(q + (b + s), []) by {
      RenderLiteralPrefix(q, g2, [b]);
    }
    assert Render(g1, [a, b]) == Rendered(a + (q + (b + s)), []) by {
      RenderStringVerb('s', q + g2, [a, b]);
      assert [a, b][1..] == [b];
    }
    RenderLiteralPrefix(p, g1, [a, b]);
  }

  /** A format with exactly two %s verbs, and otherwise '%'-free, substitutes
      its two operands in order. */
  lemma SprintfTwo(p: string, q: string, s: string, a: string, b: string)
    requires NoPercent(p) && NoPercent(q) && NoPercent(s)
    ensures Sprintf(p + "%s" + q + "%s" + s, [a, b]) == p + a + q + b + s
  {
    var f := p + ("%s" + (q + ("%s" + s)));
    assert p + "%s" + q + "%s" + s == f by {
      Associative(p, "%s", q + ("%s" + s));
      Associative(p + "%s", q, "%s" + s);
      Associative(p + "%s" + q, "%s", s);
    }
    assert p + (a + (q + (b + s))) == p + a + q + b + s by {
      Associative(q, b, s);
      Associative(a, q, b + s);
      Associative(a + q, b, s);
      Associative(p, a + q + b, s);
      Associative(p, a + q, b);
      Associative(p, a, q);
    }
    RenderTwo(p, q, s, a, b);
  }

  /** "%s" followed by sep followed by "%s", with a '%'-free sep, joins its two
      operands with sep. */
  lemma SprintfJoin(a: string, sep: string, b: string)
    requires NoPercent(sep)
    ensures Sprintf("%s" + sep + "%s", [a, b]) == a + sep + b
  {
    assert NoPercent("");
    SprintfTwo("", sep, "", a, b);
    assert "" + "%s" + sep + "%s" + "" == "%s" + sep + "%s";
    assert "" + a + sep + b + "" == a + sep + b;
  }

  /** A verb with no operand left prints "%!s(MISSING)". */
  lemma RenderMissingVerb(q: string)
    ensures Render("%s" + q, []) == Rendered(MissingS + Render(q, []).text, Render(q, []).rest)
  {
    var g := "%s" + q;
    assert g[0] == '%' && g[1] == 's' && g[2..] == q;
    assert Verb('s', []).0 == MissingS by {
      assert "%!" + ['s'] + "(MISSING)" == MissingS;
    }
  }

  /** What "%!s(MISSING)" is. */
  const MissingS: string := "%!s(MISSING)"

  /** Rendering of a two-verb format given one operand, nested to the right. */
  lemma RenderOneShort(p: string, q: string, s: string, a: string)
    requires NoPercent(p) && NoPercent(q) && NoPercent(s)
    ensures Render(p + ("%s" + (q + ("%s" + s))), [a]) == Rendered(p + (a + (q + (MissingS + s))), [])
  {
    var g2 := "%s" + s;
    var g1 := "%s" + (q + g2);
    assert Render(s, []) == Rendered(s, []) by {
      RenderLiteralPrefix(s, "", []);
      assert s + "" == s;
    }
    assert Render(g2, []) == Rendered(MissingS + s, []) by {
      RenderMissingVerb(s);
    }
    assert Render(q + g2, []) == Rendered(q + (MissingS + s), []) by {
      RenderLiteralPrefix(q, g2, []);
    }
    assert Render(g1, [a]) == Rendered(a + (q + (MissingS + s)), []) by {
      RenderStringVerb('s', q + g2, [a]);
      assert [a][1..] == [];
    }
    RenderLiteralPrefix(p, g1, [a]);
  }

  /** A format with two %s verbs, and otherwise '%'-free, given one operand:
      the first verb takes it and the second prints "%!s(MISSING)". */
  lemma SprintfOneShort(p: string, q: string, s: string, a: string)
    requires NoPercent(p) && NoPercent(q) && NoPercent(s)
    ensures Sprintf(p + "%s" + q + "%s" + s, [a]) == p + a + q + MissingS + s
  {
    assert p + "%s" + q + "%s" + s == p + ("%s" + (q + ("%s" + s))) by {
      Associative(p, "%s", q + ("%s" + s));
      Associative(p + "%s", q, "%s" + s);
      Associative(p + "%s" + q, "%s", s);
    }
    assert p + (a + (q + (MissingS + s))) == p + a + q + MissingS + s by {
      Associative(q, MissingS, s);
      Associative(a, q, MissingS + s);
      Associative(a + q, MissingS, s);
      Associative(p, a + q + MissingS, s);
      Associative(p, a + q, MissingS);
      Associative(p, a, q);
    }
    RenderOneShort(p, q, s, a);
  }
}
