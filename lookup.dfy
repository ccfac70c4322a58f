/**
 * Country lookup (`Phone#_find`): the query is trimmed and upper-cased, then
 * the registry is scanned in order and the first record whose codes contain
 * the query is chosen.
 */
module Lookup {
  import opened Wrappers
  import opened Grouping

  /** One registry entry: the codes that name the country, the group widths
      and the display template. */
  datatype CountryRecord = CountryRecord(code: seq<string>, pattern: seq<nat>, template: Template)

  /** The characters `String.prototype.trim` removes: white space and line
      terminators. */
  predicate IsTrimmable(c: char) {
    || c == ' ' || c == '\t' || c == '\n' || c == '\r'
    || c == '\U{000B}' || c == '\U{000C}' || c == '\U{00A0}' || c == '\U{FEFF}'
    || c == '\U{1680}' || ('\U{2000}' <= c <= '\U{200A}')
    || c == '\U{2028}' || c == '\U{2029}' || c == '\U{202F}' || c == '\U{205F}' || c == '\U{3000}'
  }

  predicate AllTrimmable(s: string) {
    forall i :: 0 <= i < |s| ==> IsTrimmable(s[i])
  }

  /** `s` without its leading white space. */
  function TrimStart(s: string): (r: string)
    ensures |r| <= |s| && r == s[|s| - |r|..]
    ensures AllTrimmable(s[..|s| - |r|])
    ensures r == [] || !IsTrimmable(r[0])
  {
    if s != [] && IsTrimmable(s[0]) then TrimStart(s[1..]) else s
  }

  /** `s` without its trailing white space. */
  function TrimEnd(s: string): (r: string)
    ensures |r| <= |s| && r == s[..|r|]
    ensures AllTrimmable(s[|r|..])
    ensures r == [] || !IsTrimmable(r[|r| - 1])
  {
    if s != [] && IsTrimmable(s[|s| - 1]) then TrimEnd(s[..|s| - 1]) else s
  }

  /** `s.trim()` */
  function Trim(s: string): string {
    TrimEnd(TrimStart(s))
  }

  function UpperChar(c: char): char {
    if 'a' <= c <= 'z' then (c as int - 32) as char else c
  }

  /** `s.toUpperCase()` on ASCII letters; every other character is kept. */
  function UpperAscii(s: string): (r: string)
    ensures |r| == |s|
    ensures forall i :: 0 <= i < |s| ==> r[i] == UpperChar(s[i])
  {
    if s == [] then [] else [UpperChar(s[0])] + UpperAscii(s[1..])
  }

  /** The query `_find` compares against the codes: trimmed, then upper-cased. */
  function Normalize(query: string): string {
    UpperAscii(Trim(query))
  }

  lemma {:induction false} TrimStartPadding(pre: string, s: string)
    requires AllTrimmable(pre)
    ensures TrimStart(pre + s) == TrimStart(s)
  {
    if pre != [] {
      assert (pre + s)[1..] == pre[1..] + s;
      TrimStartPadding(pre[1..], s);
    } else {
      assert pre + s == s;
    }
  }

  lemma {:induction false} TrimEndPadding(s: string, post: string)
    requires AllTrimmable(post)
    ensures TrimEnd(s + post) == TrimEnd(s)
  {
    if post != [] {
      var shorter := post[..|post| - 1];
      assert (s + post)[..|s + post| - 1] == s + shorter;
      TrimEndPadding(s, shorter);
    } else {
      assert s + post == s;
    }
  }

  /** Trailing white space disappears whether or not the leading white space
      is removed first. */
  lemma {:induction false} TrimStartAppend(s: string, post: string)
    requires AllTrimmable(post)
    ensures TrimEnd(TrimStart(s + post)) == TrimEnd(TrimStart(s))
  {
    if s == [] {
      assert s + post == post;
      TrimStartPadding(post, []);
      assert post + [] == post;
    } else if IsTrimmable(s[0]) {
      assert (s + post)[1..] == s[1..] + post;
      TrimStartAppend(s[1..], post);
    } else {
      TrimEndPadding(s, post);
    }
  }

  /** White space around the query does not change what `trim` gives. */
  lemma TrimPadding(pre: string, s: string, post: string)
    requires AllTrimmable(pre) && AllTrimmable(post)
    ensures Trim(pre + s + post) == Trim(s)
  {
    assert pre + s + post == pre + (s + post);
    TrimStartPadding(pre, s + post);
    TrimStartAppend(s, post);
  }

  lemma UpperKeepsTrimmable(c: char)
    ensures IsTrimmable(UpperChar(c)) == IsTrimmable(c)
  {
  }

  lemma {:induction false} TrimStartUpper(s: string)
    ensures TrimStart(UpperAscii(s)) == UpperAscii(TrimStart(s))
  {
    var u := UpperAscii(s);
    if s != [] {
      UpperKeepsTrimmable(s[0]);
      assert u[0] == UpperChar(s[0]);
      if IsTrimmable(s[0]) {
        TrimStartUpper(s[1..]);
        assert u[1..] == UpperAscii(s[1..]);
      }
    }
  }

  lemma {:induction false} TrimEndUpper(s: string)
    ensures TrimEnd(UpperAscii(s)) == UpperAscii(TrimEnd(s))
  {
    var u := UpperAscii(s);
    if s != [] {
      UpperKeepsTrimmable(s[|s| - 1]);
      assert u[|s| - 1] == UpperChar(s[|s| - 1]);
      if IsTrimmable(s[|s| - 1]) {
        TrimEndUpper(s[..|s| - 1]);
        assert u[..|s| - 1] == UpperAscii(s[..|s| - 1]);
      }
    }
  }

  /** Upper-casing and trimming commute: letters are never white space. */
  lemma NormalizeUpperFirst(query: string)
    ensures Normalize(query) == Trim(UpperAscii(query))
  {
    TrimStartUpper(query);
    TrimEndUpper(TrimStart(query));
  }

  /** Two queries that differ only in the case of ASCII letters and in
      surrounding white space select the same record. */
  lemma NormalizeEquivalent(pa: string, a: string, qa: string, pb: string, b: string, qb: string)
    requires AllTrimmable(pa) && AllTrimmable(qa) && AllTrimmable(pb) && AllTrimmable(qb)
    requires UpperAscii(a) == UpperAscii(b)
    ensures Normalize(pa + a + qa) == Normalize(pb + b + qb)
  {
    TrimPadding(pa, a, qa);
    TrimPadding(pb, b, qb);
    NormalizeUpperFirst(a);
    NormalizeUpperFirst(b);
  }

  /** The index of the first record whose codes contain `query`. */
  function FirstMatch(registry: seq<CountryRecord>, query: string): (m: Option<nat>)
    ensures m.Some? ==> m.value < |registry| && query in registry[m.value].code
    ensures m.Some? ==> forall j :: 0 <= j < m.value ==> query !in registry[j].code
    ensures m.None? ==> forall j :: 0 <= j < |registry| ==> query !in registry[j].code
  {
    if registry == [] then None
    else if query in registry[0].code then Some(0)
    else match FirstMatch(registry[1..], query)
      case None => None
      case Some(i) => Some(i + 1)
  }

  /** The record `_find` would format with, if there is one, has usable
      widths and template. */
  predicate MatchUsable(registry: seq<CountryRecord>, query: string) {
    var m := FirstMatch(registry, query);
    m.Some? ==> Usable(registry[m.value].pattern, registry[m.value].template)
  }

  /** The `for ... in registry` scan with its early return. */
  method FindIndex(registry: seq<CountryRecord>, query: string) returns (found: Option<nat>)
    ensures found.Some? ==> found.value < |registry| && query in registry[found.value].code
    ensures found.Some? ==> forall j :: 0 <= j < found.value ==> query !in registry[j].code
    ensures found.None? ==> forall j :: 0 <= j < |registry| ==> query !in registry[j].code
    ensures found == FirstMatch(registry, query)
  {
    var i := 0;
    while i < |registry|
      invariant 0 <= i <= |registry|
      invariant forall j :: 0 <= j < i ==> query !in registry[j].code
    {
      if query in registry[i].code {
        return Some(i);
      }
      i := i + 1;
    }
    return None;
  }

  /** The text of the `console.warn` diagnostic for an unmatched code. */
  function NotFoundMessage(query: string): string {
    "[Country Code " + query + "] doesn't not found!"
  }
}
