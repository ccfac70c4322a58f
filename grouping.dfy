/**
 * The grouping step of `Phone.format`: the regular expression built from a
 * list of group widths, the replacement template with its `$k` placeholders,
 * and the effect of the global replace on a digit-only string.
 *
 * The expression `(\d{n1})(\d{n2})...(\d{nm})` with the `g` flag is fully
 * determined by the widths `[n1, ..., nm]`, and it is only ever applied to a
 * string of digits, so its effect is stated here without a regular
 * expression engine: every full block of `Sum(widths)` digits, counted from
 * the start, becomes the template with `$k` bound to the k-th slice of the
 * block, and the digits after the last full block stay as they are.
 */
module Grouping {
  import opened Wrappers
  import opened Digits

  /** One piece of a replacement template: literal text, or the placeholder
      `$k` for the k-th capture group (counted from 1). */
  datatype Token = Lit(text: string) | Group(index: nat)

  type Template = seq<Token>

  function Sum(widths: seq<nat>): nat {
    if widths == [] then 0 else widths[0] + Sum(widths[1..])
  }

  /** Every placeholder of `t` names one of the `n` capture groups. */
  predicate Refers(t: Template, n: nat) {
    forall i :: 0 <= i < |t| ==> (t[i].Group? ==> 1 <= t[i].index <= n)
  }

  /** The widths and template `format` can be given: the expression matches at
      least one digit, and the template refers only to existing groups. */
  predicate Usable(widths: seq<nat>, t: Template) {
    Sum(widths) > 0 && Refers(t, |widths|)
  }

  /** The source text of the expression built from `widths`:
      one `(\d{n})` per width, joined with nothing in between. */
  function RegexSource(widths: seq<nat>): string {
    if widths == [] then [] else "(\\d{" + DecimalString(widths[0]) + "})" + RegexSource(widths[1..])
  }

  /** Number of leading digits of `s`. */
  function DigitRun(s: string): (k: nat)
    ensures k <= |s| && AllDigits(s[..k])
    ensures k < |s| ==> !IsDigit(s[k])
  {
    if s != [] && IsDigit(s[0]) then 1 + DigitRun(s[1..]) else 0
  }

  /** Reads a sequence of `(\d{n})` groups back into their widths. */
  function ParseRegex(s: string): Option<seq<nat>>
    decreases |s|
  {
    if s == [] then Some([])
    else if |s| < 4 || s[..4] != "(\\d{" then None
    else
      var k := DigitRun(s[4..]);
      if k == 0 || |s| < 4 + k + 2 || s[4 + k .. 4 + k + 2] != "})" then None
      else match ParseRegex(s[4 + k + 2..])
        case None => None
        case Some(rest) => Some([DecimalValue(s[4..][..k])] + rest)
  }

  lemma {:induction false} DigitRunOfDigits(d: string, tail: string)
    requires AllDigits(d) && (tail == [] || !IsDigit(tail[0]))
    ensures DigitRun(d + tail) == |d|
  {
    if d != [] {
      assert (d + tail)[1..] == d[1..] + tail;
      DigitRunOfDigits(d[1..], tail);
    } else {
      assert d + tail == tail;
    }
  }

  /** The expression text determines the widths it was built from, so the
      model may keep the widths in place of the compiled expression. */
  lemma {:induction false} RegexSourceRoundTrip(widths: seq<nat>)
    ensures ParseRegex(RegexSource(widths)) == Some(widths)
  {
    if widths != [] {
      var d := DecimalString(widths[0]);
      var rest := RegexSource(widths[1..]);
      var s := RegexSource(widths);
      assert s == "(\\d{" + (d + ("})" + rest));
      assert s[..4] == "(\\d{";
      assert s[4..] == d + ("})" + rest);
      DigitRunOfDigits(d, "})" + rest);
      assert s[4 .. 4 + |d|] == d;
      assert s[4 + |d| .. 4 + |d| + 2] == "})";
      assert s[4 + |d| + 2..] == rest;
      RegexSourceRoundTrip(widths[1..]);
      DecimalRoundTrip(widths[0]);
      assert [widths[0]] + widths[1..] == widths;
    }
  }

  /** Splits a block of exactly `Sum(widths)` characters into consecutive
      slices of the given widths: the captures of one match. */
  function Groups(block: string, widths: seq<nat>): (g: seq<string>)
    requires |block| == Sum(widths)
    ensures |g| == |widths|
    ensures forall k :: 0 <= k < |widths| ==> |g[k]| == widths[k]
  {
    if widths == [] then []
    else [block[..widths[0]]] + Groups(block[widths[0]..], widths[1..])
  }

  function Concat(g: seq<string>): string {
    if g == [] then [] else g[0] + Concat(g[1..])
  }

  /** The captures, laid end to end, give back the block. */
  lemma {:induction false} GroupsConcat(block: string, widths: seq<nat>)
    requires |block| == Sum(widths)
    ensures Concat(Groups(block, widths)) == block
  {
    if widths != [] {
      GroupsConcat(block[widths[0]..], widths[1..]);
      assert block == block[..widths[0]] + block[widths[0]..];
    }
  }

  /** Capture k (0-based here, `$(k+1)` in the template) is the slice of the
      block that starts after the first k widths. */
  lemma {:induction false} GroupAt(block: string, widths: seq<nat>, k: nat)
    requires |block| == Sum(widths) && k < |widths|
    ensures Sum(widths[..k]) + widths[k] <= |block|
    ensures Groups(block, widths)[k] == block[Sum(widths[..k]) .. Sum(widths[..k]) + widths[k]]
  {
    if k == 0 {
      assert widths[..0] == [];
    } else {
      GroupAt(block[widths[0]..], widths[1..], k - 1);
      assert widths[..k][0] == widths[0];
      assert widths[..k][1..] == widths[1..][..k - 1];
    }
  }

  /** What one token contributes: its text, or the capture it names. */
  function Piece(tok: Token, g: seq<string>): string
    requires tok.Group? ==> 1 <= tok.index <= |g|
  {
    match tok
    case Lit(s) => s
    case Group(k) => g[k - 1]
  }

  /** The template with each placeholder `$k` replaced by capture k. */
  function Render(t: Template, g: seq<string>): string
    requires Refers(t, |g|)
  {
    if t == [] then [] else Piece(t[0], g) + Render(t[1..], g)
  }

  lemma RenderCons(tok: Token, t: Template, g: seq<string>)
    requires (tok.Group? ==> 1 <= tok.index <= |g|) && Refers(t, |g|)
    ensures Refers([tok] + t, |g|)
    ensures Render([tok] + t, g) == Piece(tok, g) + Render(t, g)
  {
    assert ([tok] + t)[1..] == t;
  }

  /** `format` prepends the prefix, when one is supplied, to the template. */
  function Prefixed(t: Template, prefix: Option<string>): (r: Template)
    ensures forall n: nat :: Refers(t, n) ==> Refers(r, n)
  {
    match prefix
    case None => t
    case Some(p) => [Lit(p)] + t
  }

  lemma PrefixedRender(t: Template, prefix: string, g: seq<string>)
    requires Refers(t, |g|)
    ensures Render(Prefixed(t, Some(prefix)), g) == prefix + Render(t, g)
  {
    assert Prefixed(t, Some(prefix))[1..] == t;
  }

  /** One match of the group expression on `block`, replaced by the template. */
  function RenderBlock(block: string, widths: seq<nat>, t: Template): string
    requires Usable(widths, t) && |block| == Sum(widths)
  {
    Render(t, Groups(block, widths))
  }

  /** The global replace of the group expression built from `widths` by the
      template `t` on the digit string `d`. It is `String.prototype.replace`
      only when `d` holds digits alone, as it does after sanitizing: on other
      text the expression would skip non-digits, which is not modelled. */
  function ReplaceAll(d: string, widths: seq<nat>, t: Template): string
    requires Usable(widths, t)
    decreases |d|
  {
    var n := Sum(widths);
    if |d| < n then d
    else RenderBlock(d[..n], widths, t) + ReplaceAll(d[n..], widths, t)
  }

  /** `i * n`, written as repeated addition so that the block arithmetic
      below stays linear; `TimesIsProduct` links it to `i * n`, the offsets
      named in the comment on `Blocks`. */
  function Times(i: nat, n: nat): nat {
    if i == 0 then 0 else Times(i - 1, n) + n
  }

  lemma {:induction false} TimesIsProduct(i: nat, n: nat)
    ensures Times(i, n) == i * n
  {
    if i > 0 {
      TimesIsProduct(i - 1, n);
      assert (i - 1) * n + n == i * n;
    }
  }

  /** Reference definition by position: the first `count` blocks of `d`,
      the i-th one (from 0) being `d[i*n .. (i+1)*n]`. */
  function Blocks(d: string, n: nat, count: nat): (b: seq<string>)
    requires Times(count, n) <= |d|
    ensures |b| == count
    ensures forall i :: 0 <= i < count ==> |b[i]| == n
  {
    if count == 0 then []
    else
      TimesStep(count - 1, n);
      Blocks(d, n, count - 1) + [d[Times(count - 1, n) .. Times(count, n)]]
  }

  /** Each block rendered through the template, laid end to end. */
  function RenderEach(bs: seq<string>, widths: seq<nat>, t: Template): string
    requires Usable(widths, t)
    requires forall i :: 0 <= i < |bs| ==> |bs[i]| == Sum(widths)
  {
    if bs == [] then [] else RenderBlock(bs[0], widths, t) + RenderEach(bs[1..], widths, t)
  }

  /** The blocks tile the start of `d` without gap or overlap. */
  lemma {:induction false} BlocksTile(d: string, n: nat, count: nat)
    requires Times(count, n) <= |d|
    ensures Concat(Blocks(d, n, count)) == d[..Times(count, n)]
  {
    if count > 0 {
      TimesStep(count - 1, n);
      var lo, hi := Times(count - 1, n), Times(count, n);
      BlocksTile(d, n, count - 1);
      ConcatAppend(Blocks(d, n, count - 1), [d[lo..hi]]);
      assert Concat([d[lo..hi]]) == d[lo..hi] + Concat([]);
      assert d[..lo] + d[lo..hi] == d[..hi];
    }
  }

  lemma {:induction false} ConcatAppend(a: seq<string>, b: seq<string>)
    ensures Concat(a + b) == Concat(a) + Concat(b)
  {
    if a != [] {
      assert (a + b)[0] == a[0];
      assert (a + b)[1..] == a[1..] + b;
      ConcatAppend(a[1..], b);
    } else {
      assert a + b == b;
    }
  }

  /** Dropping the first block of `d` shifts the positions of the others. */
  lemma {:induction false} BlocksShift(d: string, n: nat, m: nat)
    requires Times(m + 1, n) <= |d|
    ensures n <= |d| && Times(m, n) <= |d| - n
    ensures Blocks(d, n, m + 1) == [d[..n]] + Blocks(d[n..], n, m)
  {
    TimesStep(m, n);
    if m > 0 {
      TimesStep(m - 1, n);
      BlocksShift(d, n, m - 1);
      var lo, hi := Times(m, n), Times(m + 1, n);
      SliceOfSuffix(d, n, Times(m - 1, n), lo);
      assert Blocks(d, n, m + 1) == Blocks(d, n, m) + [d[lo..hi]];
      assert Blocks(d[n..], n, m) == Blocks(d[n..], n, m - 1) + [d[lo..hi]];
    } else {
      assert Times(0, n) == 0;
    }
  }

  lemma SuffixOfSuffix(s: string, a: nat, b: nat)
    requires a + b <= |s|
    ensures s[a..][b..] == s[a + b..]
  {
  }

  lemma SliceOfSuffix(s: string, a: nat, b: nat, c: nat)
    requires b <= c && a + c <= |s|
    ensures s[a..][b..c] == s[a + b .. a + c]
  {
  }

  lemma TimesStep(i: nat, n: nat)
    ensures Times(i + 1, n) == n + Times(i, n)
  {
  }

  /** The global flag: with `count` full blocks in `d` and fewer than one
      block's worth after them, the replace renders each of the blocks in
      order and keeps the trailing digits verbatim. */
  lemma {:induction false} ReplaceAllBlocks(d: string, widths: seq<nat>, t: Template, count: nat)
    requires Usable(widths, t)
    requires Times(count, Sum(widths)) <= |d| < Times(count + 1, Sum(widths))
    ensures ReplaceAll(d, widths, t)
         == RenderEach(Blocks(d, Sum(widths), count), widths, t) + d[Times(count, Sum(widths))..]
    decreases count
  {
    var n := Sum(widths);
    if count > 0 {
      TimesStep(count - 1, n);
      TimesStep(count, n);
      ReplaceAllBlocks(d[n..], widths, t, count - 1);
      BlocksShift(d, n, count - 1);
      ReplaceAllBlocksStep(d, widths, t, count);
    } else {
      assert Times(0, n) == 0;
      assert d[0..] == d;
    }
  }

  /** One step of the block decomposition: the first block, then the rest. */
  lemma ReplaceAllBlocksStep(d: string, widths: seq<nat>, t: Template, count: nat)
    requires Usable(widths, t) && count > 0
    requires Times(count, Sum(widths)) == Sum(widths) + Times(count - 1, Sum(widths))
    requires Times(count, Sum(widths)) <= |d|
    requires Blocks(d, Sum(widths), count) == [d[..Sum(widths)]] + Blocks(d[Sum(widths)..], Sum(widths), count - 1)
    requires ReplaceAll(d[Sum(widths)..], widths, t)
          == RenderEach(Blocks(d[Sum(widths)..], Sum(widths), count - 1), widths, t)
             + d[Sum(widths)..][Times(count - 1, Sum(widths))..]
    ensures ReplaceAll(d, widths, t)
         == RenderEach(Blocks(d, Sum(widths), count), widths, t) + d[Times(count, Sum(widths))..]
  {
    var n := Sum(widths);
    var rest := d[n..];
    var tail := Blocks(rest, n, count - 1);
    assert rest[Times(count - 1, n)..] == d[Times(count, n)..] by {
      SuffixOfSuffix(d, n, Times(count - 1, n));
    }
    assert ReplaceAll(d, widths, t) == RenderBlock(d[..n], widths, t) + ReplaceAll(rest, widths, t);
    assert ([d[..n]] + tail)[0] == d[..n];
    assert ([d[..n]] + tail)[1..] == tail;
  }

  /** A number exactly one block long becomes the rendered template. */
  lemma ReplaceAllExact(d: string, widths: seq<nat>, t: Template)
    requires Usable(widths, t) && |d| == Sum(widths)
    ensures ReplaceAll(d, widths, t) == RenderBlock(d, widths, t)
  {
    ReplaceAllBlocks(d, widths, t, 1);
    assert d[..Sum(widths)] == d;
  }

  /** A number shorter than one block does not match at all. */
  lemma ReplaceAllShort(d: string, widths: seq<nat>, t: Template)
    requires Usable(widths, t) && |d| < Sum(widths)
    ensures ReplaceAll(d, widths, t) == d
  {
    ReplaceAllBlocks(d, widths, t, 0);
  }

  /** The placeholders of `t`, in the order they appear. */
  function GroupRefs(t: Template): seq<nat> {
    if t == [] then []
    else (if t[0].Group? then [t[0].index] else []) + GroupRefs(t[1..])
  }

  /** No literal piece of `t` contains a digit. */
  predicate DigitFreeLits(t: Template) {
    forall i :: 0 <= i < |t| ==> (t[i].Lit? ==> NoDigits(t[i].text))
  }

  /** `[lo, lo + 1, ..., hi - 1]` */
  function Range(lo: nat, hi: nat): (r: seq<nat>)
    ensures |r| == if hi <= lo then 0 else hi - lo
    ensures forall i :: 0 <= i < |r| ==> r[i] == lo + i
    decreases hi - lo
  {
    if hi <= lo then [] else [lo] + Range(lo + 1, hi)
  }

  /** The template keeps every digit and adds none: its literals hold no
      digit and it names the groups `$1 ... $m` once each, in order. */
  predicate Faithful(widths: seq<nat>, t: Template) {
    DigitFreeLits(t) && GroupRefs(t) == Range(1, |widths| + 1)
  }

  /** The captures named by `refs`, laid end to end. */
  function Pick(refs: seq<nat>, g: seq<string>): string
    requires forall i :: 0 <= i < |refs| ==> 1 <= refs[i] <= |g|
  {
    if refs == [] then [] else g[refs[0] - 1] + Pick(refs[1..], g)
  }

  lemma {:induction false} GroupRefsInRange(t: Template, n: nat)
    requires Refers(t, n)
    ensures forall i :: 0 <= i < |GroupRefs(t)| ==> 1 <= GroupRefs(t)[i] <= n
  {
    if t != [] {
      GroupRefsInRange(t[1..], n);
    }
  }

  /** The digits of a rendered template are the captures its placeholders
      name, when its literals hold no digit. */
  lemma {:induction false} StripRender(t: Template, g: seq<string>)
    requires Refers(t, |g|) && DigitFreeLits(t) && AllDigitGroups(g)
    ensures forall i :: 0 <= i < |GroupRefs(t)| ==> 1 <= GroupRefs(t)[i] <= |g|
    ensures StripNonDigits(Render(t, g)) == Pick(GroupRefs(t), g)
  {
    GroupRefsInRange(t, |g|);
    if t != [] {
      var rest := t[1..];
      assert Refers(rest, |g|) && DigitFreeLits(rest);
      StripRender(rest, g);
      StripRenderStep(t, g);
    }
  }

  predicate AllDigitGroups(g: seq<string>) {
    forall k :: 0 <= k < |g| ==> AllDigits(g[k])
  }

  /** What sanitizing keeps of one token. */
  function TokenDigits(tok: Token, g: seq<string>): string
    requires tok.Group? ==> 1 <= tok.index <= |g|
  {
    if tok.Group? then g[tok.index - 1] else []
  }

  lemma StripRenderStep(t: Template, g: seq<string>)
    requires t != [] && Refers(t, |g|) && DigitFreeLits(t) && AllDigitGroups(g)
    requires forall i :: 0 <= i < |GroupRefs(t[1..])| ==> 1 <= GroupRefs(t[1..])[i] <= |g|
    requires StripNonDigits(Render(t[1..], g)) == Pick(GroupRefs(t[1..]), g)
    ensures forall i :: 0 <= i < |GroupRefs(t)| ==> 1 <= GroupRefs(t)[i] <= |g|
    ensures StripNonDigits(Render(t, g)) == Pick(GroupRefs(t), g)
  {
    GroupRefsInRange(t, |g|);
    var rest := t[1..];
    assert t[0].Lit? ==> NoDigits(t[0].text);
    StripPiece(t[0], g);
    PickCons(t, g);
    StripConcat(Piece(t[0], g), Render(rest, g));
  }

  lemma StripPiece(tok: Token, g: seq<string>)
    requires tok.Group? ==> 1 <= tok.index <= |g|
    requires tok.Lit? ==> NoDigits(tok.text)
    requires AllDigitGroups(g)
    ensures StripNonDigits(Piece(tok, g)) == TokenDigits(tok, g)
  {
    if tok.Lit? {
      StripRemovesNonDigits(tok.text);
    } else {
      StripFixesDigits(g[tok.index - 1]);
    }
  }

  lemma PickCons(t: Template, g: seq<string>)
    requires t != [] && Refers(t, |g|)
    ensures forall i :: 0 <= i < |GroupRefs(t)| ==> 1 <= GroupRefs(t)[i] <= |g|
    ensures forall i :: 0 <= i < |GroupRefs(t[1..])| ==> 1 <= GroupRefs(t[1..])[i] <= |g|
    ensures Pick(GroupRefs(t), g) == TokenDigits(t[0], g) + Pick(GroupRefs(t[1..]), g)
  {
    GroupRefsInRange(t, |g|);
    GroupRefsInRange(t[1..], |g|);
    var refs := GroupRefs(t[1..]);
    if t[0].Group? {
      assert GroupRefs(t) == [t[0].index] + refs;
      PickHead(t[0].index, refs, g);
    } else {
      assert GroupRefs(t) == [] + refs == refs;
    }
  }

  lemma PickHead(x: nat, refs: seq<nat>, g: seq<string>)
    requires 1 <= x <= |g|
    requires forall i :: 0 <= i < |refs| ==> 1 <= refs[i] <= |g|
    ensures forall i :: 0 <= i < |[x] + refs| ==> 1 <= ([x] + refs)[i] <= |g|
    ensures Pick([x] + refs, g) == g[x - 1] + Pick(refs, g)
  {
    assert ([x] + refs)[0] == x;
    assert ([x] + refs)[1..] == refs;
  }

  lemma {:induction false} PickRange(lo: nat, g: seq<string>)
    requires 1 <= lo <= |g| + 1
    ensures Pick(Range(lo, |g| + 1), g) == Concat(g[lo - 1..])
    decreases |g| + 1 - lo
  {
    if lo <= |g| {
      PickRange(lo + 1, g);
      assert g[lo - 1..][1..] == g[lo..];
    }
  }

  lemma {:induction false} GroupsAreDigits(block: string, widths: seq<nat>)
    requires |block| == Sum(widths) && AllDigits(block)
    ensures AllDigitGroups(Groups(block, widths))
  {
    if widths != [] {
      GroupsAreDigits(block[widths[0]..], widths[1..]);
    }
  }

  /** With a faithful template no digit is fabricated or lost: the digits of
      the formatted number are the digits it was made from. */
  lemma {:induction false} StripReplaceAll(d: string, widths: seq<nat>, t: Template)
    requires AllDigits(d) && Usable(widths, t) && Faithful(widths, t)
    ensures StripNonDigits(ReplaceAll(d, widths, t)) == d
    decreases |d|
  {
    var n := Sum(widths);
    if |d| < n {
      StripFixesDigits(d);
    } else {
      var block := d[..n];
      var g := Groups(block, widths);
      assert RenderBlock(block, widths, t) == Render(t, g);
      GroupsAreDigits(block, widths);
      StripRender(t, g);
      PickRange(1, g);
      assert g[0..] == g;
      GroupsConcat(block, widths);
      StripReplaceAll(d[n..], widths, t);
      StripConcat(Render(t, g), ReplaceAll(d[n..], widths, t));
      assert d == block + d[n..];
    }
  }

  /** Formatting an already formatted number again, through the same
      faithful template, gives the same text. */
  lemma ReformatStable(d: string, widths: seq<nat>, t: Template)
    requires AllDigits(d) && Usable(widths, t) && Faithful(widths, t)
    ensures ReplaceAll(StripNonDigits(ReplaceAll(d, widths, t)), widths, t) == ReplaceAll(d, widths, t)
  {
    StripReplaceAll(d, widths, t);
  }

  /** A prefix without digits keeps a faithful template faithful. */
  lemma PrefixedFaithful(widths: seq<nat>, t: Template, prefix: string)
    requires Faithful(widths, t) && NoDigits(prefix)
    ensures Faithful(widths, Prefixed(t, Some(prefix)))
  {
    var pt := Prefixed(t, Some(prefix));
    assert pt[1..] == t;
    assert GroupRefs(pt) == GroupRefs(t);
  }

  /** The digits of a prefix are read back as part of the number: after one
      block is formatted with a prefix, sanitizing gives the prefix's digits
      followed by the block. */
  lemma StripPrefixedBlock(d: string, widths: seq<nat>, t: Template, prefix: string)
    requires AllDigits(d) && Usable(widths, t) && Faithful(widths, t) && |d| == Sum(widths)
    ensures Usable(widths, Prefixed(t, Some(prefix)))
    ensures StripNonDigits(ReplaceAll(d, widths, Prefixed(t, Some(prefix)))) == StripNonDigits(prefix) + d
  {
    var g := Groups(d, widths);
    ReplaceAllExact(d, widths, Prefixed(t, Some(prefix)));
    PrefixedRender(t, prefix, g);
    StripConcat(prefix, Render(t, g));
    GroupsAreDigits(d, widths);
    StripRender(t, g);
    PickRange(1, g);
    assert g[0..] == g;
    GroupsConcat(d, widths);
  }
}
