/**
 * Worked cases: the `BY` record with widths `[2, 2, 3]` and template
 * `($1) $2-$3`, on the number `1234567` and its neighbours.
 */
module Examples {
  import opened Wrappers
  import opened Digits
  import opened Grouping
  import opened Lookup
  import opened PhoneModel

  /** `($1) $2-$3` */
  function ByTemplate(): Template {
    [Lit("("), Group(1), Lit(") "), Group(2), Lit("-"), Group(3)]
  }

  function ByRegistry(): seq<CountryRecord> {
    [CountryRecord(["BY"], [2, 2, 3], ByTemplate())]
  }

  lemma ByRegex()
    ensures RegexSource([2, 2, 3]) == "(\\d{2})(\\d{2})(\\d{3})"
  {
    assert [2, 2, 3][1..] == [2, 3] && [2, 3][1..] == [3] && [3][1..] == [];
    assert DecimalString(2) == "2" && DecimalString(3) == "3";
  }

  lemma ByGroups(b: string)
    requires |b| == 7
    ensures Sum([2, 2, 3]) == 7
    ensures Groups(b, [2, 2, 3]) == [b[..2], b[2..4], b[4..]]
  {
    var w: seq<nat> := [2, 2, 3];
    assert w[1..] == [2, 3] && w[1..][1..] == [3] && w[1..][1..][1..] == [];
    var b1 := b[2..];
    var b2 := b1[2..];
    assert b1[..2] == b[2..4] && b2 == b[4..] && b2[..3] == b2;
    assert Groups(b2, [3]) == [b2];
    assert Groups(b1, [2, 3]) == [b[2..4], b2];
  }

  lemma ByRender(x: string, y: string, z: string)
    ensures Render(ByTemplate(), [x, y, z]) == "(" + x + ") " + y + "-" + z
  {
    var g := [x, y, z];
    var t3 := [Group(3)];
    var t2 := [Lit("-")] + t3;
    var t1 := [Group(2)] + t2;
    var t0 := [Lit(") ")] + t1;
    var u := [Group(1)] + t0;
    assert Render(t3, g) == z by {
      RenderCons(Group(3), [], g);
      assert [Group(3)] + [] == t3;
    }
    assert Render(t2, g) == "-" + z by {
      RenderCons(Lit("-"), t3, g);
    }
    assert Render(t1, g) == y + "-" + z by {
      RenderCons(Group(2), t2, g);
    }
    assert Render(t0, g) == ") " + y + "-" + z by {
      RenderCons(Lit(") "), t1, g);
    }
    assert Render(u, g) == x + ") " + y + "-" + z by {
      RenderCons(Group(1), t0, g);
    }
    assert Render([Lit("(")] + u, g) == "(" + x + ") " + y + "-" + z by {
      RenderCons(Lit("("), u, g);
    }
    assert ByTemplate() == [Lit("(")] + u;
  }

  /** Any seven-character block, as rendered by the `BY` record. */
  lemma ByBlock(b: string)
    requires |b| == 7
    ensures Sum([2, 2, 3]) == 7 && Usable([2, 2, 3], ByTemplate())
    ensures RenderBlock(b, [2, 2, 3], ByTemplate()) == "(" + b[..2] + ") " + b[2..4] + "-" + b[4..]
  {
    ByGroups(b);
    ByRender(b[..2], b[2..4], b[4..]);
  }

  /** The groups of `1234567`. */
  lemma ByDigits()
    ensures Sum([2, 2, 3]) == 7 && Usable([2, 2, 3], ByTemplate())
    ensures Groups("1234567", [2, 2, 3]) == ["12", "34", "567"]
    ensures Render(ByTemplate(), ["12", "34", "567"]) == "(12) 34-567"
  {
    var d := "1234567";
    ByGroups(d);
    assert d[..2] == "12" && d[2..4] == "34" && d[4..] == "567";
    ByRender("12", "34", "567");
  }

  lemma ByExact()
    ensures ReplaceAll("1234567", [2, 2, 3], ByTemplate()) == "(12) 34-567"
  {
    ByDigits();
    ReplaceAllExact("1234567", [2, 2, 3], ByTemplate());
  }

  lemma ByWithPrefix()
    ensures ReplaceAll("1234567", [2, 2, 3], Prefixed(ByTemplate(), Some("+"))) == "+(12) 34-567"
  {
    var t := Prefixed(ByTemplate(), Some("+"));
    ByDigits();
    PrefixedRender(ByTemplate(), "+", ["12", "34", "567"]);
    ReplaceAllExact("1234567", [2, 2, 3], t);
  }

  /** Nine digits: one block, and the last two digits kept. */
  lemma ByLonger()
    ensures ReplaceAll("123456789", [2, 2, 3], ByTemplate()) == "(12) 34-56789"
  {
    var d := "123456789";
    ByDigits();
    assert d[..7] == "1234567" && d[7..] == "89";
    ReplaceAllShort("89", [2, 2, 3], ByTemplate());
  }

  /** Fourteen digits: two blocks, each rendered on its own. */
  lemma ByTwoBlocks(x: string, y: string)
    requires |x| == 7 && |y| == 7 && AllDigits(x) && AllDigits(y)
    ensures ReplaceAll(x + y, [2, 2, 3], ByTemplate())
         == "(" + x[..2] + ") " + x[2..4] + "-" + x[4..] + "(" + y[..2] + ") " + y[2..4] + "-" + y[4..]
  {
    var w, t := [2, 2, 3], ByTemplate();
    ByBlock(x);
    var rx := RenderBlock(x, w, t);
    var ry := RenderBlock(y, w, t);
    assert ReplaceAll(x + y, w, t) == rx + ReplaceAll(y, w, t) by {
      assert (x + y)[..7] == x && (x + y)[7..] == y;
    }
    assert ReplaceAll(y, w, t) == ry by {
      ReplaceAllExact(y, w, t);
    }
    assert ry == "(" + y[..2] + ") " + y[2..4] + "-" + y[4..] by {
      ByBlock(y);
    }
  }

  lemma ByShort()
    ensures ReplaceAll("123456", [2, 2, 3], ByTemplate()) == "123456"
  {
    ByDigits();
    ReplaceAllShort("123456", [2, 2, 3], ByTemplate());
  }

  /** A query padded with blanks and in lower case. */
  lemma PaddedQuery(q: string)
    requires q == " by "
    ensures Normalize(q) == "BY"
  {
    var inner := q[1..];
    var word := inner[..2];
    TrimStartOne(q);
    TrimEndOne(inner);
    assert UpperAscii(word) == "BY" by {
      assert word[0] == 'b' && word[1] == 'y';
    }
  }

  lemma TrimStartOne(s: string)
    requires |s| >= 2 && IsTrimmable(s[0]) && !IsTrimmable(s[1])
    ensures TrimStart(s) == s[1..]
  {
  }

  lemma TrimEndOne(s: string)
    requires |s| >= 2 && IsTrimmable(s[|s| - 1]) && !IsTrimmable(s[|s| - 2])
    ensures TrimEnd(s) == s[..|s| - 1]
  {
  }

  lemma PlainQuery(q: string)
    requires q == "BY" || q == "ZZ"
    ensures Normalize(q) == q
  {
    assert !IsTrimmable(q[0]) && !IsTrimmable(q[1]);
    assert TrimStart(q) == q && TrimEnd(q) == q;
    assert UpperAscii(q) == q;
  }

  lemma ByQuery()
    ensures Normalize(" by ") == "BY" && Normalize("BY") == "BY"
    ensures FirstMatch(ByRegistry(), Normalize(" by ")) == Some(0)
    ensures FirstMatch(ByRegistry(), Normalize("ZZ")) == None
  {
    PaddedQuery(" by ");
    PlainQuery("BY");
    PlainQuery("ZZ");
    ByRegistryMatches();
  }

  lemma ByRegistryMatches()
    ensures FirstMatch(ByRegistry(), "BY") == Some(0)
    ensures FirstMatch(ByRegistry(), "ZZ") == None
  {
    assert "ZZ"[0] != "BY"[0];
    assert "ZZ" !in ByRegistry()[0].code;
    assert ByRegistry()[1..] == [];
  }

  /** Dashes between digit groups are dropped. */
  lemma ByStrip(a: string, b: string, c: string)
    requires AllDigits(a) && AllDigits(b) && AllDigits(c)
    ensures StripNonDigits(a + "-" + b + "-" + c) == a + b + c
  {
    var dash := "-";
    var p1 := a + dash;
    var p2 := p1 + b + dash;
    assert StripNonDigits(p1) == a by {
      StripDash([], a, dash);
      assert [] + a + dash == p1;
      assert StripNonDigits([]) == [];
    }
    assert StripNonDigits(p2) == a + b by {
      StripDash(p1, b, dash);
    }
    assert StripNonDigits(p2 + c) == a + b + c by {
      StripConcat(p2, c);
      StripFixesDigits(c);
    }
  }

  /** Appending digits and then a dash appends just the digits. */
  lemma StripDash(p: string, x: string, dash: string)
    requires AllDigits(x) && dash == "-"
    ensures StripNonDigits(p + x + dash) == StripNonDigits(p) + x
  {
    assert NoDigits(dash);
    StripRemovesNonDigits(dash);
    StripFixesDigits(x);
    StripConcat(p, x);
    StripConcat(p + x, dash);
  }

  /** The number of the worked case, sanitized. */
  lemma ByStripped(raw: string)
    requires raw == "12-34-567"
    ensures StripNonDigits(raw) == "1234567"
  {
    var a, b, c := raw[..2], raw[3..5], raw[6..];
    assert raw == a + "-" + b + "-" + c;
    assert AllDigits(a) && AllDigits(b) && AllDigits(c);
    ByStrip(a, b, c);
    assert a + b + c == "1234567";
  }

  /** A client of the class: a lookup that matches. */
  method LookupMatches(raw: string, registry: seq<CountryRecord>)
    requires raw == "12-34-567" && registry == ByRegistry()
  {
    var rec := registry[0];
    assert rec.pattern == [2, 2, 3] && rec.template == ByTemplate();
    assert Usable(rec.pattern, rec.template) by { ByDigits(); }
    assert FirstMatch(registry, Normalize(" by ")) == Some(0) by { ByQuery(); }
    assert ReplaceAll(StripNonDigits(raw), rec.pattern, Prefixed(rec.template, Some("+"))) == "+(12) 34-567" by {
      ByStripped(raw);
      ByWithPrefix();
    }
    var phone := new Phone(raw);
    var r, w := phone.Country(" by ", Some("+"), registry);
    assert r == "+(12) 34-567" && w == None;
  }

  /** A client of the class: a lookup that does not match. */
  method LookupMisses(raw: string, registry: seq<CountryRecord>)
    requires raw == "12-34-567" && registry == ByRegistry()
  {
    assert FirstMatch(registry, Normalize("ZZ")) == None && Normalize("ZZ") == "ZZ" by {
      ByQuery();
      PlainQuery("ZZ");
    }
    var phone := new Phone(raw);
    var r, w := phone.Country("ZZ", None, registry);
    assert r == raw && phone.pattern == None;
    assert w == Some(NotFoundMessage("ZZ"));
  }

  /** Formatting a second time with the same faithful widths and template
      leaves the formatted number as it is. */
  method FormatAgain(phone: Phone, widths: seq<nat>, t: Template, prefix: Option<string>)
    requires Usable(widths, t) && Faithful(widths, Prefixed(t, prefix))
    modifies phone
    ensures phone.number == ReplaceAll(StripNonDigits(old(phone.number)), widths, Prefixed(t, prefix))
  {
    var first := phone.Format(widths, t, prefix);
    var second := phone.Format(widths, t, prefix);
    ReformatStable(StripNonDigits(old(phone.number)), widths, Prefixed(t, prefix));
    assert second == first;
  }
}
